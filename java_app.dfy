/**
 * AudioTranscriberApp.java: the Swing window's listening flag, buttons,
 * status label and text area, the transcript extraction in
 * `recognizeSpeech`, and the append rule of `listenContinuously`.
 *
 * The microphone line, the three-second timing loop and the HTTP request
 * are outside the model: a recorded chunk is described by whether Stop
 * was pressed while it recorded and by the reply the request got.
 */
module JavaApp {
  import opened Wrappers
  import opened Strings

  // ---------------------------------------------------------------- transcript extraction

  /** What `result.contains` looks for. */
  const Key := "\"transcript\":"

  /** What `result.indexOf` looks for; the value starts 14 characters after it. */
  const Marker := "\"transcript\":\""

  /**
   * The hand-written JSON scan of `recognizeSpeech`: the text between the
   * first `"transcript":"` and the next `"`, or null (None).
   */
  function ExtractTranscript(result: string): Option<string> {
    if !Contains(result, Key) then None
    else
      var start := IndexOf(result, Marker, 0) + 14;
      var end := IndexOf(result, "\"", start);
      if start > 13 && end > start then Some(result[start..end]) else None
  }

  /**
   * A returned transcript is the non-empty run of characters right after
   * the first marker, up to a closing quote it does not contain.
   */
  lemma ExtractSound(result: string)
    requires ExtractTranscript(result).Some?
    ensures 0 <= IndexOf(result, Marker, 0) && OccursAt(result, Marker, IndexOf(result, Marker, 0))
    ensures forall j :: 0 <= j < IndexOf(result, Marker, 0) ==> !OccursAt(result, Marker, j)
    ensures OccursAt(result, ExtractTranscript(result).value + "\"", IndexOf(result, Marker, 0) + 14)
    ensures ExtractTranscript(result).value != "" && '"' !in ExtractTranscript(result).value
  {
    var t := ExtractTranscript(result).value;
    var start := IndexOf(result, Marker, 0) + 14;
    var end := IndexOf(result, "\"", start);
    assert t == result[start..end];
    assert result[end] == '"' by {
      assert OccursAt(result, "\"", end);
    }
    assert result[start..end + 1] == t + "\"";
    forall i | 0 <= i < |t|
      ensures t[i] != '"'
    {
      assert !OccursAt(result, "\"", start + i);
      assert result[start + i..start + i + 1] == [t[i]];
    }
  }

  /**
   * Conversely, a first marker followed by a non-empty quote-free text and
   * a quote always yields exactly that text.
   */
  lemma ExtractComplete(result: string, k: nat, t: string)
    requires OccursAt(result, Marker, k)
    requires forall j :: 0 <= j < k ==> !OccursAt(result, Marker, j)
    requires t != "" && '"' !in t && OccursAt(result, t + "\"", k + 14)
    ensures ExtractTranscript(result) == Some(t)
  {
    assert result[k..k + 13] == Key by {
      assert result[k..k + 13] == result[k..k + 14][..13];
    }
    assert OccursAt(result, Key, k);
    assert IndexOf(result, Marker, 0) == k;
    var start := k + 14;
    var end := start + |t|;
    assert result[start..end] == t by {
      assert result[start..end] == result[start..end + 1][..|t|];
    }
    assert OccursAt(result, "\"", end) by {
      assert result[end] == (t + "\"")[|t|];
    }
    forall j | start <= j < end
      ensures !OccursAt(result, "\"", j)
    {
      assert result[j] == t[j - start];
    }
    assert IndexOf(result, "\"", start) == end;
  }

  /** `"transcript": "…"` with a space, or any reply missing the marker, gives null. */
  lemma ExtractNeedsMarker(result: string)
    requires !Contains(result, Marker)
    ensures ExtractTranscript(result) == None
  {
    IndexOfFindsContains(result, Marker);
  }

  /** An empty transcript `"transcript":""` gives null too. */
  lemma ExtractEmptyValue(result: string, k: nat)
    requires OccursAt(result, Marker, k)
    requires forall j :: 0 <= j < k ==> !OccursAt(result, Marker, j)
    requires OccursAt(result, "\"", k + 14)
    ensures ExtractTranscript(result) == None
  {
    IndexOfFindsContains(result, Marker);
    assert IndexOf(result, Marker, 0) == k;
    assert IndexOf(result, "\"", k + 14) == k + 14;
  }

  /** The `contains` test never decides anything: the marker test alone gives the same result. */
  lemma ExtractKeyTestRedundant(result: string)
    requires !Contains(result, Key)
    ensures !Contains(result, Marker)
  {
    if Contains(result, Marker) {
      ContainsPrefixOf(result, Marker, Key);
    }
  }

  // ---------------------------------------------------------------- recognizeSpeech

  /** What the POST got back; NoReply is any exception on the way. */
  datatype Reply = NoReply | Reply(code: int, lines: seq<string>)

  /** `recognizeSpeech`: only a 200 reply is read, its lines joined without separators. */
  function RecognizeSpeech(r: Reply): (t: Option<string>)
    ensures t.Some? ==> r.Reply? && r.code == 200 && t.value != "" && '"' !in t.value
  {
    if r.Reply? && r.code == 200 then
      var result := Concat(r.lines);
      var t := ExtractTranscript(result);
      if t.None? then None else ExtractSound(result); t
    else None
  }

  /** What `listenContinuously` appends to the text area for one recognised chunk. */
  function Appended(t: Option<string>): (s: string)
    ensures s == "" <==> t.None? || t.value == ""
    ensures s != "" ==> s == t.value + " "
  {
    if t.Some? && t.value != "" then t.value + " " else ""
  }

  // ---------------------------------------------------------------- the window

  datatype AppState = AppState(listening: bool, startEnabled: bool, stopEnabled: bool, status: string, text: string)

  predicate Coherent(s: AppState) {
    s.startEnabled == !s.listening && s.stopEnabled == s.listening
  }

  /** `startListening`, before it submits the worker. */
  function StartState(s: AppState): (r: AppState)
    ensures r.listening && Coherent(r) && r.text == s.text
  {
    s.(listening := true, startEnabled := false, stopEnabled := true, status := "Status: Listening...")
  }

  /** `stopListening`. */
  function StopState(s: AppState): (r: AppState)
    ensures !r.listening && Coherent(r) && r.text == s.text
  {
    s.(listening := false, startEnabled := true, stopEnabled := false, status := "Status: Stopped")
  }

  /** One three-second chunk of `listenContinuously`. */
  datatype Chunk = Chunk(stopPressed: bool, reply: Reply)

  /** A chunk as the loop sees it: the Stop press, and what `recognizeSpeech` returned. */
  datatype Heard = Heard(stopPressed: bool, transcript: Option<string>)

  function Recognized(chunks: seq<Chunk>): (heard: seq<Heard>)
    ensures |heard| == |chunks|
    ensures forall k :: 0 <= k < |chunks| ==>
              heard[k] == Heard(chunks[k].stopPressed, RecognizeSpeech(chunks[k].reply))
  {
    seq(|chunks|, k requires 0 <= k < |chunks| => Heard(chunks[k].stopPressed, RecognizeSpeech(chunks[k].reply)))
  }

  /**
   * The `while (isListening)` loop over the chunks it gets to record: the
   * status shows Recording, a Stop pressed meanwhile ends the loop, and
   * otherwise the chunk's transcript is appended.
   */
  function Run(s: AppState, heard: seq<Heard>): AppState
    decreases |heard|
  {
    if !s.listening || heard == [] then s
    else
      var recording := s.(status := "Status: Recording...");
      if heard[0].stopPressed then StopState(recording)
      else
        var processed := recording.(status := "Status: Processing...",
                                    text := recording.text + Appended(heard[0].transcript));
        Run(processed, heard[1..])
  }

  /**
   * The whole of `listenContinuously`: an unsupported line, or an
   * exception from the microphone after the chunks, shows an error and
   * stops listening.
   */
  function Listened(s: AppState, supported: bool, heard: seq<Heard>, failure: Option<string>): AppState {
    if !supported then StopState(s.(status := "Error: Microphone not supported"))
    else
      var r := Run(s, heard);
      if r.listening && failure.Some? then StopState(r.(status := "Error: " + failure.value)) else r
  }

  /** What the chunks before the first Stop add to the text area. */
  function Transcripts(heard: seq<Heard>): string {
    if heard == [] || heard[0].stopPressed then ""
    else Appended(heard[0].transcript) + Transcripts(heard[1..])
  }

  predicate StopPressedIn(heard: seq<Heard>) {
    exists k | 0 <= k < |heard| :: heard[k].stopPressed
  }

  // ---------------------------------------------------------------- lemmas on the loop

  /** While listening, the text area grows by exactly the recognised transcripts. */
  lemma {:induction false} RunText(s: AppState, heard: seq<Heard>)
    requires s.listening
    ensures Run(s, heard).text == s.text + Transcripts(heard)
    decreases |heard|
  {
    if heard == [] || heard[0].stopPressed {
      assert Transcripts(heard) == "";
    } else {
      var t := Appended(heard[0].transcript);
      var rest := Transcripts(heard[1..]);
      var processed := AppState(true, s.startEnabled, s.stopEnabled, "Status: Processing...", s.text + t);
      assert Run(s, heard).text == Run(processed, heard[1..]).text;
      RunText(processed, heard[1..]);
      assert Transcripts(heard) == t + rest;
      assert (s.text + t) + rest == s.text + (t + rest);
    }
  }

  /** The loop ends listening exactly when Stop was pressed, and then the label says Stopped. */
  lemma {:induction false} RunStops(s: AppState, heard: seq<Heard>)
    requires s.listening
    ensures !Run(s, heard).listening <==> StopPressedIn(heard)
    ensures StopPressedIn(heard) ==> Run(s, heard).status == "Status: Stopped"
    ensures heard != [] && !StopPressedIn(heard) ==> Run(s, heard).status == "Status: Processing..."
    decreases |heard|
  {
    if heard != [] && !heard[0].stopPressed {
      var recording := s.(status := "Status: Recording...");
      var processed := recording.(status := "Status: Processing...",
                                  text := recording.text + Appended(heard[0].transcript));
      RunStops(processed, heard[1..]);
      assert StopPressedIn(heard) <==> StopPressedIn(heard[1..]) by {
        assert forall k :: 1 <= k < |heard| ==> heard[k] == heard[1..][k - 1];
      }
    }
  }

  /** The loop keeps the buttons in agreement with the flag. */
  lemma {:induction false} RunCoherent(s: AppState, heard: seq<Heard>)
    requires Coherent(s)
    ensures Coherent(Run(s, heard))
    decreases |heard|
  {
    if s.listening && heard != [] && !heard[0].stopPressed {
      var recording := s.(status := "Status: Recording...");
      var processed := recording.(status := "Status: Processing...",
                                  text := recording.text + Appended(heard[0].transcript));
      RunCoherent(processed, heard[1..]);
    }
  }

  /**
   * The error texts never stay on the label: `stopListening` runs right
   * after and writes "Status: Stopped" over them.
   */
  lemma ListenedErrorsOverwritten(s: AppState, supported: bool, heard: seq<Heard>, e: string)
    ensures !supported ==> Listened(s, supported, heard, Some(e)).status == "Status: Stopped"
    ensures !supported ==> Listened(s, supported, heard, Some(e)).text == s.text
    ensures !Listened(s, supported, heard, Some(e)).listening
    ensures s.listening ==> Listened(s, supported, heard, Some(e)).status == "Status: Stopped"
  {
    if s.listening && supported {
      RunStops(s, heard);
    }
  }

  // ---------------------------------------------------------------- the class

  class App {
    var isListening: bool
    var startEnabled: bool
    var stopEnabled: bool
    var status: string
    var text: string

    function State(): AppState
      reads this
    {
      AppState(isListening, startEnabled, stopEnabled, status, text)
    }

    constructor ()
      ensures State() == AppState(false, true, false, "Status: Idle", "")
      ensures Coherent(State())
    {
      isListening := false;
      startEnabled := true;
      stopEnabled := false;
      status := "Status: Idle";
      text := "";
    }

    method StartListening()
      modifies this
      ensures State() == StartState(old(State()))
    {
      isListening := true;
      startEnabled := false;
      stopEnabled := true;
      status := "Status: Listening...";
    }

    method StopListening()
      modifies this
      ensures State() == StopState(old(State()))
    {
      isListening := false;
      startEnabled := true;
      stopEnabled := false;
      status := "Status: Stopped";
    }

    /** The Clear Text button. */
    method Clear()
      modifies this
      ensures State() == old(State()).(text := "")
    {
      text := "";
    }

    /**
     * `listenContinuously`, the Swing-thread updates it posts taking
     * effect in order, and a Stop press landing while a chunk records.
     */
    method ListenContinuously(supported: bool, chunks: seq<Chunk>, failure: Option<string>)
      modifies this
      ensures State() == Listened(old(State()), supported, Recognized(chunks), failure)
    {
      if !supported {
        status := "Error: Microphone not supported";
        StopListening();
        return;
      }
      var i := 0;
      while isListening && i < |chunks|
        invariant 0 <= i <= |chunks|
        invariant Run(State(), Recognized(chunks)[i..]) == Run(old(State()), Recognized(chunks))
        decreases |chunks| - i
      {
        ghost var before := State();
        ghost var heard := Recognized(chunks);
        assert heard[i..][0] == heard[i] && heard[i..][1..] == heard[i + 1..];
        status := "Status: Recording...";
        if chunks[i].stopPressed {
          StopListening();
        }
        if !isListening {
          assert State() == Run(before, heard[i..]);
          break;
        }
        status := "Status: Processing...";
        var t := RecognizeSpeech(chunks[i].reply);
        if t.Some? && t.value != "" {
          text := text + t.value + " ";
        }
        assert State() == before.(status := "Status: Processing...", text := before.text + Appended(t));
        i := i + 1;
      }
      if isListening {
        assert Recognized(chunks)[i..] == [];
        if failure.Some? {
          status := "Error: " + failure.value;
          StopListening();
        }
      }
    }
  }
}
