/**
 * The microphone list: which enumerated audio devices `load_microphones`
 * keeps, the combobox label `"[i] name"` it shows for each, and the parse
 * of that label back to the device index when listening starts.
 *
 * The three PyAudio variants (Vosk, cloud Whisper, local Whisper) test a
 * device's input channel count and its name; the speech_recognition
 * variant (audio_transcriber_fixed.py) only has names, so it tests the
 * name alone.
 */
module Devices {
  import opened Wrappers
  import opened Strings

  /** The two fields of PyAudio's `get_device_info_by_index(i)` the filter reads. */
  datatype DeviceInfo = DeviceInfo(name: string, maxInputChannels: int)

  /** A kept device: its enumeration index and its name. */
  datatype Mic = Mic(index: nat, name: string)

  /** Any of these in the lower-cased name marks a microphone. */
  const Keywords: seq<string> := ["microphone", "input", "capture", "hyperx", "trust", "logitech"]

  predicate HasKeyword(lowered: string) {
    exists k | 0 <= k < |Keywords| :: Contains(lowered, Keywords[k])
  }

  /** The name test every variant with a microphone list applies. */
  predicate NameQualifies(name: string) {
    var lowered := Lower(name);
    HasKeyword(lowered) && !Contains(lowered, "output") && !Contains(lowered, "speaker")
  }

  /** The PyAudio variants' test: at least one input channel and a qualifying name. */
  predicate DeviceQualifies(d: DeviceInfo) {
    d.maxInputChannels > 0 && NameQualifies(d.name)
  }

  // ---------------------------------------------------------------- the filters

  /** The devices the PyAudio variants keep, in enumeration order. */
  function KeptDevices(ds: seq<DeviceInfo>): seq<Mic> {
    if ds == [] then []
    else
      var last := |ds| - 1;
      KeptDevices(ds[..last]) + (if DeviceQualifies(ds[last]) then [Mic(last, ds[last].name)] else [])
  }

  /** The names audio_transcriber_fixed.py keeps, in enumeration order. */
  function KeptNames(names: seq<string>): seq<Mic> {
    if names == [] then []
    else
      var last := |names| - 1;
      KeptNames(names[..last]) + (if NameQualifies(names[last]) then [Mic(last, names[last])] else [])
  }

  /** The enumeration loop of `load_microphones` in the PyAudio variants. */
  method FilterDevices(ds: seq<DeviceInfo>) returns (mics: seq<Mic>)
    ensures mics == KeptDevices(ds)
  {
    mics := [];
    var i := 0;
    while i < |ds|
      invariant 0 <= i <= |ds|
      invariant mics == KeptDevices(ds[..i])
    {
      assert ds[..i + 1][..i] == ds[..i];
      if ds[i].maxInputChannels > 0 {
        var name := ds[i].name;
        if HasKeyword(Lower(name)) {
          if !Contains(Lower(name), "output") && !Contains(Lower(name), "speaker") {
            mics := mics + [Mic(i, name)];
          }
        }
      }
      i := i + 1;
    }
    assert ds[..|ds|] == ds;
  }

  /** The enumeration loop of `load_microphones` in audio_transcriber_fixed.py. */
  method FilterNames(names: seq<string>) returns (mics: seq<Mic>)
    ensures mics == KeptNames(names)
  {
    mics := [];
    var i := 0;
    while i < |names|
      invariant 0 <= i <= |names|
      invariant mics == KeptNames(names[..i])
    {
      assert names[..i + 1][..i] == names[..i];
      var name := names[i];
      if HasKeyword(Lower(name)) {
        if !Contains(Lower(name), "output") && !Contains(Lower(name), "speaker") {
          mics := mics + [Mic(i, name)];
        }
      }
      i := i + 1;
    }
    assert names[..|names|] == names;
  }

  // ---------------------------------------------------------------- what the filters keep

  /** A device is kept exactly when the device at its index passes the test. */
  lemma {:induction false} KeptDevicesMembers(ds: seq<DeviceInfo>, m: Mic)
    ensures m in KeptDevices(ds) <==>
              m.index < |ds| && ds[m.index].name == m.name && DeviceQualifies(ds[m.index])
  {
    if ds != [] {
      var last := |ds| - 1;
      KeptDevicesMembers(ds[..last], m);
    }
  }

  /** A name is kept exactly when the name at its index passes the test. */
  lemma {:induction false} KeptNamesMembers(names: seq<string>, m: Mic)
    ensures m in KeptNames(names) <==>
              m.index < |names| && names[m.index] == m.name && NameQualifies(names[m.index])
  {
    if names != [] {
      var last := |names| - 1;
      KeptNamesMembers(names[..last], m);
    }
  }

  /** Kept devices keep enumeration order: their indices strictly increase. */
  lemma {:induction false} KeptDevicesOrdered(ds: seq<DeviceInfo>)
    ensures forall k :: 0 <= k < |KeptDevices(ds)| ==> KeptDevices(ds)[k].index < |ds|
    ensures forall a, b :: 0 <= a < b < |KeptDevices(ds)| ==>
              KeptDevices(ds)[a].index < KeptDevices(ds)[b].index
  {
    if ds != [] {
      KeptDevicesOrdered(ds[..|ds| - 1]);
    }
  }

  /** Kept names keep enumeration order: their indices strictly increase. */
  lemma {:induction false} KeptNamesOrdered(names: seq<string>)
    ensures forall k :: 0 <= k < |KeptNames(names)| ==> KeptNames(names)[k].index < |names|
    ensures forall a, b :: 0 <= a < b < |KeptNames(names)| ==>
              KeptNames(names)[a].index < KeptNames(names)[b].index
  {
    if names != [] {
      KeptNamesOrdered(names[..|names| - 1]);
    }
  }

  /**
   * The entry `load_microphones` selects, the first of the list, is the
   * lowest-numbered qualifying device.
   */
  lemma KeptDevicesFirst(ds: seq<DeviceInfo>)
    requires KeptDevices(ds) != []
    ensures KeptDevices(ds)[0].index < |ds|
    ensures DeviceQualifies(ds[KeptDevices(ds)[0].index])
    ensures forall j :: 0 <= j < KeptDevices(ds)[0].index ==> !DeviceQualifies(ds[j])
  {
    KeptDevicesMembers(ds, KeptDevices(ds)[0]);
    KeptDevicesNoneBefore(ds);
  }

  lemma KeptDevicesNoneBefore(ds: seq<DeviceInfo>)
    requires KeptDevices(ds) != []
    ensures forall j :: 0 <= j < |ds| && DeviceQualifies(ds[j]) ==> KeptDevices(ds)[0].index <= j
  {
    var kept := KeptDevices(ds);
    KeptDevicesOrdered(ds);
    forall j | 0 <= j < |ds| && DeviceQualifies(ds[j])
      ensures kept[0].index <= j
    {
      KeptDevicesMembers(ds, Mic(j, ds[j].name));
      var p :| 0 <= p < |kept| && kept[p] == Mic(j, ds[j].name);
      assert p == 0 || kept[0].index < kept[p].index;
    }
  }

  /** The same for the name list of audio_transcriber_fixed.py. */
  lemma KeptNamesFirst(names: seq<string>)
    requires KeptNames(names) != []
    ensures KeptNames(names)[0].index < |names|
    ensures NameQualifies(names[KeptNames(names)[0].index])
    ensures forall j :: 0 <= j < KeptNames(names)[0].index ==> !NameQualifies(names[j])
  {
    KeptNamesMembers(names, KeptNames(names)[0]);
    KeptNamesNoneBefore(names);
  }

  lemma KeptNamesNoneBefore(names: seq<string>)
    requires KeptNames(names) != []
    ensures forall j :: 0 <= j < |names| && NameQualifies(names[j]) ==> KeptNames(names)[0].index <= j
  {
    var kept := KeptNames(names);
    KeptNamesOrdered(names);
    forall j | 0 <= j < |names| && NameQualifies(names[j])
      ensures kept[0].index <= j
    {
      KeptNamesMembers(names, Mic(j, names[j]));
      var p :| 0 <= p < |kept| && kept[p] == Mic(j, names[j]);
      assert p == 0 || kept[0].index < kept[p].index;
    }
  }

  function Names(ds: seq<DeviceInfo>): (names: seq<string>)
    ensures |names| == |ds| && forall k :: 0 <= k < |ds| ==> names[k] == ds[k].name
  {
    seq(|ds|, k requires 0 <= k < |ds| => ds[k].name)
  }

  /**
   * The name-only filter keeps everything the PyAudio filter keeps, and
   * when every device has an input channel the two lists coincide.
   */
  lemma {:induction false} KeptDevicesWithinNames(ds: seq<DeviceInfo>)
    ensures forall m :: m in KeptDevices(ds) ==> m in KeptNames(Names(ds))
    ensures (forall k :: 0 <= k < |ds| ==> ds[k].maxInputChannels > 0) ==>
              KeptDevices(ds) == KeptNames(Names(ds))
  {
    if ds != [] {
      var last := |ds| - 1;
      assert Names(ds[..last]) == Names(ds)[..last];
      KeptDevicesWithinNames(ds[..last]);
    }
  }

  // ---------------------------------------------------------------- labels

  /** The combobox entry shown for a kept device: `f"[{i}] {name}"`. */
  function Label(m: Mic): string {
    "[" + Decimal(m.index) + "] " + m.name
  }

  function Labels(mics: seq<Mic>): (labels: seq<string>)
    ensures |labels| == |mics| && forall k :: 0 <= k < |mics| ==> labels[k] == Label(mics[k])
  {
    seq(|mics|, k requires 0 <= k < |mics| => Label(mics[k]))
  }

  /**
   * `int(selection.split(']')[0].replace('[', ''))` from `start_listening`;
   * None where Python raises ValueError.
   */
  function ParseSelection(selection: string): Option<int> {
    ParseInt(RemoveAll(BeforeFirst(selection, ']'), '['))
  }

  lemma BeforeFirstOf(a: string, c: char, b: string)
    requires c !in a
    ensures BeforeFirst(a + [c] + b, c) == a
  {
    var s := a + [c] + b;
    var r := BeforeFirst(s, c);
    assert s[|a|] == c;
  }

  /** Parsing a label gives back the device index, whatever the name holds. */
  lemma LabelRoundTrip(m: Mic)
    ensures ParseSelection(Label(m)) == Some(m.index)
  {
    var digits := Decimal(m.index);
    assert Label(m) == ("[" + digits) + [']'] + (" " + m.name);
    assert ']' !in "[" + digits by {
      assert forall k :: 0 <= k < |digits| ==> IsDigit(digits[k]);
    }
    BeforeFirstOf("[" + digits, ']', " " + m.name);
    assert ("[" + digits)[1..] == digits;
    assert '[' !in digits by {
      assert forall k :: 0 <= k < |digits| ==> IsDigit(digits[k]);
    }
    RemoveAllAbsent(digits, '[');
    ParseDecimal(m.index);
  }
}
