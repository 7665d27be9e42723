/**
 * The `(type, msg)` messages the worker threads put on `text_queue`, and
 * what `process_queue` does with each: a `text` message is appended to the
 * transcript area, a `status` message replaces the status label when the
 * variant's condition allows it, and an `error` message shows itself and
 * then calls `stop_listening`.
 *
 * The five Python variants differ only in the status condition and in
 * whether `stop_listening` also re-enables a microphone combobox; the
 * variant is therefore a parameter here.
 */
module Messages {
  import opened Strings

  datatype Msg = Text(body: string) | Status(body: string) | Error(body: string)

  /**
   * Which program: audio_transcriber.py (Basic), audio_transcriber_fixed.py,
   * audio_transcriber_vosk.py, audio_transcriber_whisper.py (WhisperCloud)
   * and audio_transcriber_whisper_local.py.
   */
  datatype Variant = Basic | Fixed | Vosk | WhisperCloud | WhisperLocal

  /** Every variant but the first has a microphone combobox. */
  predicate HasMicCombo(v: Variant) {
    !v.Basic?
  }

  /** The variants whose `start_listening` first checks a model or API client. */
  predicate NeedsEngine(v: Variant) {
    v.Vosk? || v.WhisperCloud? || v.WhisperLocal?
  }

  /** When `process_queue` lets a `status` message through to the label. */
  predicate StatusShown(v: Variant, listening: bool, msg: string) {
    match v
    case Basic => listening
    case WhisperCloud => listening
    case Fixed => listening || Contains(msg, "Test")
    case Vosk => true
    case WhisperLocal => listening || Contains(msg, "Loading") || Contains(msg, "Ready")
  }

  /** The state `process_queue` and the start/stop buttons write. */
  datatype Ui = Ui(
    listening: bool,
    text: string,
    status: string,
    startEnabled: bool,
    stopEnabled: bool,
    comboSelectable: bool)

  /** The buttons (and the combobox, where there is one) agree with the flag. */
  predicate Coherent(v: Variant, u: Ui) {
    && u.startEnabled == !u.listening
    && u.stopEnabled == u.listening
    && (HasMicCombo(v) ==> u.comboSelectable == !u.listening)
  }

  /** `start_listening` once its guards have passed. */
  function Start(v: Variant, u: Ui): (r: Ui)
    ensures r.listening && Coherent(v, r) && r.text == u.text
    ensures r.status == "Status: Listening..."
  {
    u.(listening := true, startEnabled := false, stopEnabled := true,
       comboSelectable := if HasMicCombo(v) then false else u.comboSelectable,
       status := "Status: Listening...")
  }

  /** `stop_listening`. */
  function Stop(v: Variant, u: Ui): (r: Ui)
    ensures !r.listening && Coherent(v, r) && r.text == u.text
    ensures r.status == "Status: Stopped"
  {
    u.(listening := false, startEnabled := true, stopEnabled := false,
       comboSelectable := if HasMicCombo(v) then true else u.comboSelectable,
       status := "Status: Stopped")
  }

  /** One pass of the body of `process_queue`'s loop. */
  function Handle(v: Variant, u: Ui, m: Msg): Ui {
    match m
    case Text(s) => u.(text := u.text + s)
    case Status(s) => if StatusShown(v, u.listening, s) then u.(status := "Status: " + s) else u
    case Error(s) => Stop(v, u.(status := s))
  }

  /** The state after `process_queue` has taken every message off the queue. */
  function Drain(v: Variant, u: Ui, q: seq<Msg>): Ui
    decreases |q|
  {
    if q == [] then u else Drain(v, Handle(v, u, q[0]), q[1..])
  }

  /** The bodies of the `text` messages, in queue order. */
  function TextLines(q: seq<Msg>): seq<string> {
    if q == [] then [] else (if q[0].Text? then [q[0].body] else []) + TextLines(q[1..])
  }

  predicate HasError(q: seq<Msg>) {
    exists i | 0 <= i < |q| :: q[i].Error?
  }

  // ---------------------------------------------------------------- lemmas

  lemma {:induction false} TextLinesAppend(a: seq<Msg>, b: seq<Msg>)
    ensures TextLines(a + b) == TextLines(a) + TextLines(b)
  {
    if a == [] {
      assert a + b == b;
    } else {
      assert (a + b)[0] == a[0];
      assert (a + b)[1..] == a[1..] + b;
      TextLinesAppend(a[1..], b);
    }
  }

  /** One more message taken off the queue, from any position. */
  lemma DrainFrom(v: Variant, u: Ui, q: seq<Msg>, i: nat)
    requires i < |q|
    ensures Drain(v, u, q[i..]) == Drain(v, Handle(v, u, q[i]), q[i + 1..])
  {
    assert q[i..][1..] == q[i + 1..];
  }

  lemma TextLinesFrom(q: seq<Msg>, i: nat)
    requires i < |q|
    ensures TextLines(q[i..]) == (if q[i].Text? then [q[i].body] else []) + TextLines(q[i + 1..])
  {
    assert q[i..][1..] == q[i + 1..];
  }

  /** Draining `q` and then `m` is draining `q + [m]`. */
  lemma {:induction false} DrainSnoc(v: Variant, u: Ui, q: seq<Msg>, m: Msg)
    ensures Drain(v, u, q + [m]) == Handle(v, Drain(v, u, q), m)
    decreases |q|
  {
    if q != [] {
      assert (q + [m])[1..] == q[1..] + [m];
      DrainSnoc(v, Handle(v, u, q[0]), q[1..], m);
    }
  }

  /** Text messages reach the transcript in FIFO order, and nothing else does. */
  lemma {:induction false} DrainText(v: Variant, u: Ui, q: seq<Msg>)
    ensures Drain(v, u, q).text == u.text + Concat(TextLines(q))
    decreases |q|
  {
    if q != [] {
      DrainText(v, Handle(v, u, q[0]), q[1..]);
      var rest := TextLines(q[1..]);
      if q[0].Text? {
        assert ([q[0].body] + rest)[1..] == rest;
      } else {
        assert [] + rest == rest;
      }
    }
  }

  /** Listening survives a drain exactly when the queue held no error. */
  lemma {:induction false} DrainListening(v: Variant, u: Ui, q: seq<Msg>)
    ensures Drain(v, u, q).listening == (u.listening && !HasError(q))
    decreases |q|
  {
    if q != [] {
      DrainListening(v, Handle(v, u, q[0]), q[1..]);
      assert HasError(q) <==> q[0].Error? || HasError(q[1..]) by {
        assert forall i :: 1 <= i < |q| ==> q[i] == q[1..][i - 1];
      }
    }
  }

  /** Draining keeps the buttons in agreement with the flag. */
  lemma {:induction false} DrainCoherent(v: Variant, u: Ui, q: seq<Msg>)
    requires Coherent(v, u)
    ensures Coherent(v, Drain(v, u, q))
    decreases |q|
  {
    if q != [] {
      DrainCoherent(v, Handle(v, u, q[0]), q[1..]);
    }
  }

  /**
   * An error message never stays on the label: `stop_listening` replaces it
   * with "Status: Stopped" in the same pass.
   */
  lemma DrainEndingInError(v: Variant, u: Ui, q: seq<Msg>)
    requires q != [] && q[|q| - 1].Error?
    ensures Drain(v, u, q).status == "Status: Stopped"
    ensures !Drain(v, u, q).listening
  {
    var n := |q| - 1;
    assert q == q[..n] + [q[n]];
    DrainSnoc(v, u, q[..n], q[n]);
  }

  /**
   * Two windows, one per variant, that may show different status labels;
   * their comboboxes agree too when both or neither variant has one.
   */
  predicate AgreeApartFromStatus(v: Variant, w: Variant, a: Ui, b: Ui) {
    && a.listening == b.listening
    && a.text == b.text
    && a.startEnabled == b.startEnabled
    && a.stopEnabled == b.stopEnabled
    && (HasMicCombo(v) == HasMicCombo(w) ==> a.comboSelectable == b.comboSelectable)
  }

  lemma HandleKeepsAgreement(v: Variant, w: Variant, a: Ui, b: Ui, m: Msg)
    requires AgreeApartFromStatus(v, w, a, b)
    ensures AgreeApartFromStatus(v, w, Handle(v, a, m), Handle(w, b, m))
  {
    match m
    case Text(_) =>
    case Status(_) =>
      assert Handle(v, a, m) == a.(status := Handle(v, a, m).status);
      assert Handle(w, b, m) == b.(status := Handle(w, b, m).status);
    case Error(_) =>
  }

  lemma {:induction false} DrainKeepsAgreement(v: Variant, w: Variant, a: Ui, b: Ui, q: seq<Msg>)
    requires AgreeApartFromStatus(v, w, a, b)
    ensures AgreeApartFromStatus(v, w, Drain(v, a, q), Drain(w, b, q))
    decreases |q|
  {
    if q != [] {
      HandleKeepsAgreement(v, w, a, b, q[0]);
      DrainKeepsAgreement(v, w, Handle(v, a, q[0]), Handle(w, b, q[0]), q[1..]);
    }
  }

  /**
   * Draining the same queue from the same window, two variants end with the
   * same transcript, flag and buttons; the combobox can differ only when one
   * of them has none, and the status label is the one thing their rules
   * decide differently.
   */
  lemma DrainVariantsAgree(v: Variant, w: Variant, u: Ui, q: seq<Msg>)
    ensures Drain(v, u, q).text == Drain(w, u, q).text
    ensures Drain(v, u, q).listening == Drain(w, u, q).listening
    ensures Drain(v, u, q).startEnabled == Drain(w, u, q).startEnabled
    ensures Drain(v, u, q).stopEnabled == Drain(w, u, q).stopEnabled
    ensures HasMicCombo(v) == HasMicCombo(w) ==>
      Drain(v, u, q).comboSelectable == Drain(w, u, q).comboSelectable
  {
    DrainKeepsAgreement(v, w, u, u, q);
  }

  /** A queue of text messages changes the transcript and nothing else. */
  lemma {:induction false} DrainOnlyText(v: Variant, u: Ui, q: seq<Msg>)
    requires forall k :: 0 <= k < |q| ==> q[k].Text?
    ensures Drain(v, u, q) == u.(text := u.text + Concat(TextLines(q)))
    decreases |q|
  {
    if q != [] {
      DrainOnlyText(v, Handle(v, u, q[0]), q[1..]);
      assert ([q[0].body] + TextLines(q[1..]))[1..] == TextLines(q[1..]);
    }
  }

  /**
   * audio_transcriber.py and the cloud Whisper variant have the strictest
   * status rule and the Vosk variant the loosest: a message one variant
   * shows is shown by every looser one.
   */
  lemma StatusRulesNest(v: Variant, listening: bool, msg: string)
    ensures StatusShown(Basic, listening, msg) == StatusShown(WhisperCloud, listening, msg)
    ensures StatusShown(Basic, listening, msg) ==> StatusShown(v, listening, msg)
    ensures StatusShown(v, listening, msg) ==> StatusShown(Vosk, listening, msg)
  {
  }

  /** Every variant shows a status message while listening. */
  lemma StatusShownWhileListening(v: Variant, u: Ui, msg: string)
    requires u.listening
    ensures Handle(v, u, Status(msg)).status == "Status: " + msg
  {
  }

  /**
   * Once stopped, audio_transcriber.py and the cloud Whisper variant drop
   * status messages entirely.
   */
  lemma StatusDroppedWhenIdle(v: Variant, u: Ui, msg: string)
    requires v.Basic? || v.WhisperCloud?
    requires !u.listening
    ensures Handle(v, u, Status(msg)) == u
  {
  }

  /** The model-ready status is shown while idle by the two model-loading variants. */
  lemma {:induction false} ReadyShownWhileIdle(v: Variant, u: Ui)
    requires v.Vosk? || v.WhisperLocal?
    ensures Handle(v, u, Status("Ready" + " - Click Start Listening")).status
            == "Status: " + ("Ready" + " - Click Start Listening")
  {
    ContainsStart("Ready", " - Click Start Listening");
  }
}
