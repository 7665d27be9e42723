/**
 * The transcriber window of the five Python programs: the state the
 * button handlers and `process_queue` write (listening flag, transcript,
 * status label, buttons, microphone combobox), the start guard, and the
 * queue between the worker thread and the Tk thread.
 *
 * Threads are modelled as interleaved calls: the worker's passes are
 * `Listen` and `Put`, the Tk thread's polling is `ProcessQueue`, the
 * buttons are the other methods.
 */
module Transcriber {
  import opened Wrappers
  import opened Strings
  import opened Devices
  import opened Messages
  import opened Utterances

  // ---------------------------------------------------------------- start guard

  /** What a click on Start Listening does: start, or stop at one of the guards. */
  datatype StartResult = Started | NoEngine | NoSelection | BadSelection

  /**
   * The guards of `start_listening`, in order: the model (Vosk, local
   * Whisper) or API client (cloud Whisper) must be there, the combobox
   * must hold a selection, and `int(...)` must accept its index part
   * (BadSelection is the ValueError).  audio_transcriber.py has none.
   */
  function StartCheck(v: Variant, engineReady: bool, selection: string): StartResult {
    if NeedsEngine(v) && !engineReady then NoEngine
    else if v.Basic? then Started
    else if selection == "" then NoSelection
    else if ParseSelection(selection).None? then BadSelection
    else Started
  }

  /** Exactly when listening starts. */
  lemma StartGuards(v: Variant, engineReady: bool, selection: string)
    ensures StartCheck(v, engineReady, selection) == Started <==>
              v.Basic? || ((!NeedsEngine(v) || engineReady) && selection != "" && ParseSelection(selection).Some?)
    ensures NeedsEngine(v) && !engineReady ==> StartCheck(v, engineReady, selection) == NoEngine
    ensures v.Basic? ==> StartCheck(v, engineReady, selection) == Started
  {
  }

  /**
   * With the engine ready, a selection taken from the combobox always
   * starts listening, on the device the label was made from.
   */
  lemma StartFromLabel(v: Variant, engineReady: bool, m: Mic)
    requires !NeedsEngine(v) || engineReady
    ensures StartCheck(v, engineReady, Label(m)) == Started
    ensures ParseSelection(Label(m)) == Some(m.index)
  {
    LabelRoundTrip(m);
  }

  // ---------------------------------------------------------------- texts

  /** The status label each window starts with. */
  function InitialStatus(v: Variant): string {
    match v
    case Basic => "Status: Idle"
    case Fixed => "Status: Select a microphone and click Start"
    case Vosk => "Status: Loading..."
    case WhisperCloud => "Status: Enter API key to start"
    case WhisperLocal => "Status: Click 'Load Model' to start"
  }

  /** The variants that enumerate PyAudio devices rather than speech_recognition names. */
  predicate UsesPyAudio(v: Variant) {
    v.Vosk? || v.WhisperCloud? || v.WhisperLocal?
  }

  /** The count line `load_microphones` writes into the transcript. */
  function FoundLine(v: Variant, count: nat): string {
    if v.Fixed? || v.Vosk? then "Found " + Decimal(count) + " input microphone(s)\n"
    else "Found " + Decimal(count) + " microphone(s)\n"
  }

  const ApiKeyValidated := "Status: API key validated \U{2713}"
  const ApiKeyInvalid := "Status: Invalid API key"
  const ApiKeyAccepted := "[API key set successfully!]\n[Ready to transcribe with Whisper AI]\n\n"
  const TestingNotice := "\n[TESTING MICROPHONE - Speak now for 3 seconds...]\n"
  const TestingStatus := "Status: Testing... Speak now!"

  // ---------------------------------------------------------------- model sizes

  /** The dictionary `update_model_info` looks the chosen size up in. */
  const ModelInfos: map<string, string> := map[
    "tiny" := "tiny: ~40MB, Fast but less accurate",
    "base" := "base: ~140MB, Good accuracy, Fast",
    "small" := "small: ~460MB, Better accuracy, Medium speed",
    "medium" := "medium: ~1.5GB, High accuracy, Slower",
    "large" := "large: ~3GB, Best accuracy, Slowest"]

  /** `model_info.get(size, "")`. */
  function ModelInfo(size: string): string {
    if size in ModelInfos then ModelInfos[size] else ""
  }

  /** Only the five sizes of the model combobox have a description. */
  lemma ModelInfoKnown(size: string)
    ensures ModelInfo(size) != "" <==> size in ["tiny", "base", "small", "medium", "large"]
  {
    assert ModelInfos.Keys == {"tiny", "base", "small", "medium", "large"};
  }

  // ---------------------------------------------------------------- the window

  class Transcriber {
    const variant: Variant
    var isListening: bool
    var text: string
    var status: string
    var startEnabled: bool
    var stopEnabled: bool
    var comboSelectable: bool
    /** `self.model` or `self.client`: the name of the loaded model, or the API key. */
    var engine: Option<string>
    var comboValues: seq<string>
    var selection: string
    var selectedMic: Option<int>
    var modelInfo: string
    /** `text_queue`, front first. */
    var queue: seq<Msg>

    function State(): Ui
      reads this
    {
      Ui(isListening, text, status, startEnabled, stopEnabled, comboSelectable)
    }

    predicate Valid()
      reads this
    {
      Coherent(variant, State())
    }

    /** `__init__`, before `load_microphones` and the first `process_queue`. */
    constructor (v: Variant)
      ensures variant == v && Valid()
      ensures State() == Ui(false, "", InitialStatus(v), true, false, HasMicCombo(v))
      ensures engine == None && comboValues == [] && selection == "" && selectedMic == None
      ensures modelInfo == ModelInfo("base") && queue == []
    {
      variant := v;
      isListening := false;
      text := "";
      status := InitialStatus(v);
      startEnabled := true;
      stopEnabled := false;
      comboSelectable := HasMicCombo(v);
      engine := None;
      comboValues := [];
      selection := "";
      selectedMic := None;
      modelInfo := ModelInfos["base"];
      queue := [];
    }

    /**
     * The tail both `load_microphones` share: the combobox gets a label per
     * kept microphone and, when there is one, the first is selected and
     * announced with the count.
     */
    method ShowMicrophones(mics: seq<Mic>)
      modifies this
      ensures comboValues == Labels(mics)
      ensures mics != [] ==>
                && selection == Label(mics[0])
                && selectedMic == Some(mics[0].index)
                && text == old(text) + FoundLine(variant, |mics|) + "Selected: " + mics[0].name + "\n\n"
      ensures mics == [] ==> selection == old(selection) && selectedMic == old(selectedMic) && text == old(text)
      ensures isListening == old(isListening) && status == old(status) && startEnabled == old(startEnabled)
      ensures stopEnabled == old(stopEnabled) && comboSelectable == old(comboSelectable)
      ensures engine == old(engine) && modelInfo == old(modelInfo) && queue == old(queue)
    {
      comboValues := Labels(mics);
      if mics != [] {
        selection := comboValues[0];
        selectedMic := Some(mics[0].index);
        text := text + FoundLine(variant, |mics|) + "Selected: " + mics[0].name + "\n\n";
      }
    }

    /** `load_microphones` of the PyAudio variants. */
    method LoadMicrophones(ds: seq<DeviceInfo>)
      requires UsesPyAudio(variant)
      modifies this
      ensures comboValues == Labels(KeptDevices(ds))
      ensures KeptDevices(ds) != [] ==>
                && selection == Label(KeptDevices(ds)[0])
                && selectedMic == Some(KeptDevices(ds)[0].index)
                && text == old(text) + FoundLine(variant, |KeptDevices(ds)|)
                          + "Selected: " + KeptDevices(ds)[0].name + "\n\n"
      ensures KeptDevices(ds) == [] ==>
                selection == old(selection) && selectedMic == old(selectedMic) && text == old(text)
      ensures isListening == old(isListening) && status == old(status) && startEnabled == old(startEnabled)
      ensures stopEnabled == old(stopEnabled) && comboSelectable == old(comboSelectable)
      ensures engine == old(engine) && modelInfo == old(modelInfo) && queue == old(queue)
    {
      var mics := FilterDevices(ds);
      ShowMicrophones(mics);
    }

    /** `load_microphones` of audio_transcriber_fixed.py, over the device names. */
    method LoadMicrophoneNames(names: seq<string>)
      requires variant.Fixed?
      modifies this
      ensures comboValues == Labels(KeptNames(names))
      ensures KeptNames(names) != [] ==>
                && selection == Label(KeptNames(names)[0])
                && selectedMic == Some(KeptNames(names)[0].index)
                && text == old(text) + FoundLine(variant, |KeptNames(names)|)
                          + "Selected: " + KeptNames(names)[0].name + "\n\n"
      ensures KeptNames(names) == [] ==>
                selection == old(selection) && selectedMic == old(selectedMic) && text == old(text)
      ensures isListening == old(isListening) && status == old(status) && startEnabled == old(startEnabled)
      ensures stopEnabled == old(stopEnabled) && comboSelectable == old(comboSelectable)
      ensures engine == old(engine) && modelInfo == old(modelInfo) && queue == old(queue)
    {
      var mics := FilterNames(names);
      ShowMicrophones(mics);
    }

    /**
     * The user picks entry `k` of the readonly combobox.  Nothing else is
     * bound to the choice: `selected_mic_index` changes only when
     * listening starts.
     */
    method Choose(k: nat)
      requires HasMicCombo(variant) && comboSelectable && k < |comboValues|
      modifies this
      ensures comboValues == old(comboValues) && selection == comboValues[k]
      ensures State() == old(State()) && selectedMic == old(selectedMic)
      ensures engine == old(engine) && modelInfo == old(modelInfo) && queue == old(queue)
    {
      selection := comboValues[k];
    }

    /** The model-loading thread of the Vosk or local Whisper variant assigns `self.model`. */
    method ModelLoaded(name: string)
      requires variant.Vosk? || variant.WhisperLocal?
      modifies this
      ensures engine == Some(name)
      ensures State() == old(State()) && selection == old(selection) && selectedMic == old(selectedMic)
      ensures comboValues == old(comboValues) && modelInfo == old(modelInfo) && queue == old(queue)
    {
      engine := Some(name);
    }

    /** `update_model_info` of the local Whisper variant. */
    method UpdateModelInfo(size: string)
      requires variant.WhisperLocal?
      modifies this
      ensures modelInfo == ModelInfo(size)
      ensures State() == old(State()) && engine == old(engine) && selection == old(selection)
      ensures selectedMic == old(selectedMic) && comboValues == old(comboValues) && queue == old(queue)
    {
      modelInfo := ModelInfo(size);
    }

    /**
     * `set_api_key` of the cloud Whisper variant.  A key that is blank
     * after stripping is refused and nothing changes; any other key
     * becomes the client before the test request, so it stays set even
     * when `validates` (the outcome of `client.models.list()`) is false.
     */
    method SetApiKey(raw: string, validates: bool) returns (accepted: bool)
      requires variant.WhisperCloud?
      modifies this
      ensures accepted <==> Strip(raw) != ""
      ensures !accepted ==> engine == old(engine) && State() == old(State())
      ensures accepted ==> engine == Some(Strip(raw))
      ensures accepted && validates ==>
                State() == old(State()).(status := ApiKeyValidated, text := old(text) + ApiKeyAccepted)
      ensures accepted && !validates ==> State() == old(State()).(status := ApiKeyInvalid)
      ensures selection == old(selection) && selectedMic == old(selectedMic) && comboValues == old(comboValues)
      ensures modelInfo == old(modelInfo) && queue == old(queue)
    {
      var key := Strip(raw);
      if key == "" {
        return false;
      }
      engine := Some(key);
      if validates {
        status := ApiKeyValidated;
        text := text + ApiKeyAccepted;
      } else {
        status := ApiKeyInvalid;
      }
      return true;
    }

    /**
     * `start_listening`.  Past the guards the selection's index becomes
     * `selected_mic_index` and the window switches to listening; at a
     * guard nothing changes.
     */
    method StartListening() returns (r: StartResult)
      modifies this
      ensures r == StartCheck(variant, old(engine).Some?, old(selection))
      ensures r.Started? ==> State() == Start(variant, old(State()))
      ensures !r.Started? ==> State() == old(State())
      ensures r.Started? && !variant.Basic? ==> selectedMic == ParseSelection(old(selection))
      ensures !r.Started? || variant.Basic? ==> selectedMic == old(selectedMic)
      ensures r.Started? ==> Valid()
      ensures engine == old(engine) && selection == old(selection) && comboValues == old(comboValues)
      ensures modelInfo == old(modelInfo) && queue == old(queue)
    {
      if NeedsEngine(variant) && engine.None? {
        r := NoEngine;
      } else if variant.Basic? {
        r := Started;
      } else if selection == "" {
        r := NoSelection;
      } else {
        var index := ParseSelection(selection);
        if index.None? {
          r := BadSelection;
        } else {
          selectedMic := index;
          r := Started;
        }
      }
      if r.Started? {
        SwitchToListening();
      }
    }

    /** The part of `start_listening` past its guards: buttons, combobox and label. */
    method SwitchToListening()
      modifies this
      ensures State() == Start(variant, old(State())) && Valid()
      ensures engine == old(engine) && selection == old(selection) && selectedMic == old(selectedMic)
      ensures comboValues == old(comboValues) && modelInfo == old(modelInfo) && queue == old(queue)
    {
      isListening := true;
      startEnabled := false;
      stopEnabled := true;
      if HasMicCombo(variant) {
        comboSelectable := false;
      }
      status := "Status: Listening...";
    }

    /** `stop_listening`: whatever the state, listening ends. */
    method StopListening()
      modifies this
      ensures State() == Stop(variant, old(State()))
      ensures !isListening && status == "Status: Stopped" && Valid()
      ensures engine == old(engine) && selection == old(selection) && selectedMic == old(selectedMic)
      ensures comboValues == old(comboValues) && modelInfo == old(modelInfo) && queue == old(queue)
    {
      isListening := false;
      startEnabled := true;
      stopEnabled := false;
      if HasMicCombo(variant) {
        comboSelectable := true;
      }
      status := "Status: Stopped";
    }

    /** `clear_text`. */
    method ClearText()
      modifies this
      ensures State() == old(State()).(text := "")
      ensures engine == old(engine) && selection == old(selection) && selectedMic == old(selectedMic)
      ensures comboValues == old(comboValues) && modelInfo == old(modelInfo) && queue == old(queue)
    {
      text := "";
    }

    /**
     * `test_mic` of audio_transcriber_fixed.py, up to the start of its
     * thread (whose messages are `TestMessages`): without a selected
     * microphone only a warning is shown.
     */
    method TestMic() returns (started: bool)
      requires variant.Fixed?
      modifies this
      ensures started <==> old(selectedMic).Some?
      ensures !started ==> State() == old(State())
      ensures started ==> State() == old(State()).(text := old(text) + TestingNotice, status := TestingStatus)
      ensures engine == old(engine) && selection == old(selection) && selectedMic == old(selectedMic)
      ensures comboValues == old(comboValues) && modelInfo == old(modelInfo) && queue == old(queue)
    {
      if selectedMic.None? {
        return false;
      }
      text := text + TestingNotice;
      status := TestingStatus;
      return true;
    }

    /** A thread's `text_queue.put` of each of `ms` in turn. */
    method Put(ms: seq<Msg>)
      modifies this
      ensures queue == old(queue) + ms
      ensures State() == old(State()) && engine == old(engine) && selection == old(selection)
      ensures selectedMic == old(selectedMic) && comboValues == old(comboValues) && modelInfo == old(modelInfo)
    {
      queue := queue + ms;
    }

    /**
     * A run of the worker's `listen_continuously`: what it enqueues before
     * its loop, the passes `while self.is_listening` lets it make (up to
     * and including one that breaks), and what it enqueues after the
     * loop.  The passes run out where the worker finds the flag False.
     */
    method Listen(preamble: seq<Msg>, steps: seq<Step>, epilogue: seq<Msg>)
      modifies this
      ensures queue == old(queue) + preamble + (if isListening then Produced(steps) else []) + epilogue
      ensures State() == old(State()) && engine == old(engine) && selection == old(selection)
      ensures selectedMic == old(selectedMic) && comboValues == old(comboValues) && modelInfo == old(modelInfo)
    {
      var produced: seq<Msg> := [];
      var i := 0;
      var broke := false;
      while isListening && i < |steps| && !broke
        invariant 0 <= i <= |steps|
        invariant broke ==> i > 0 && steps[i - 1].stop
        invariant isListening ==> Produced(steps) == produced + (if broke then [] else Produced(steps[i..]))
        invariant !isListening ==> produced == []
        decreases |steps| - i
      {
        assert steps[i..][1..] == steps[i + 1..];
        produced := produced + steps[i].msgs;
        broke := steps[i].stop;
        i := i + 1;
      }
      if isListening && !broke {
        assert steps[i..] == [];
      }
      queue := queue + preamble + produced + epilogue;
    }

    /**
     * `process_queue`: take messages off the front until the queue is
     * empty, handling each as `Handle` says.
     */
    method ProcessQueue()
      modifies this
      ensures queue == []
      ensures State() == Drain(variant, old(State()), old(queue))
      ensures old(Valid()) ==> Valid()
      ensures engine == old(engine) && selection == old(selection) && selectedMic == old(selectedMic)
      ensures comboValues == old(comboValues) && modelInfo == old(modelInfo)
    {
      if Valid() {
        DrainCoherent(variant, State(), queue);
      }
      while queue != []
        invariant Drain(variant, State(), queue) == Drain(variant, old(State()), old(queue))
        invariant engine == old(engine) && selection == old(selection) && selectedMic == old(selectedMic)
        invariant comboValues == old(comboValues) && modelInfo == old(modelInfo)
        decreases |queue|
      {
        var m := queue[0];
        queue := queue[1..];
        match m
        case Text(s) =>
          text := text + s;
        case Status(s) =>
          if StatusShown(variant, isListening, s) {
            status := "Status: " + s;
          }
        case Error(s) =>
          status := s;
          StopListening();
      }
    }
  }
}
