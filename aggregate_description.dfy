/** The aggregate-device description both `create_aggregate_device` variants serialise, and a
    strict reader for it. The reader is the builder's partner: it accepts exactly the
    dictionaries the builder produces and recovers the fields they were built from, which is
    the sense in which re-deriving a description from its device UIDs and tap UUID reproduces
    it exactly. The status mappings the two variants share are here too. */
module AggregateDescription {

  import opened Wrappers
  import opened Text
  import opened CoreAudio

  /** What one description says: display name, device UID, main sub-device, the ordered
      sub-device list and the UUID of the one tap. */
  datatype AggregateSpec = AggregateSpec(
    name: string,
    uid: string,
    mainSubDevice: string,
    subDevices: seq<string>,
    tapUuid: string)

  /** `CreateAggregateDeviceResult`: the ids of the new aggregate device and of its tap. */
  datatype CreateAggregateDeviceResult = CreateAggregateDeviceResult(tapId: AudioObjectId, aggregateDeviceId: AudioObjectId)

  /** What the OS answers during one creation: the UUID the new `CATapDescription` carries, the
      status and id of the process tap, and the status and id of the aggregate device. */
  datatype CreationAnswers = CreationAnswers(
    tapUuid: string,
    tapStatus: int,
    tapId: AudioObjectId,
    createStatus: int,
    aggregateDeviceId: AudioObjectId)

  const DescriptionKeys: set<string> := {
    AggregateDeviceNameKey, AggregateDeviceUIDKey, AggregateDeviceMainSubDeviceKey,
    AggregateDeviceIsPrivateKey, AggregateDeviceTapAutoStartKey,
    AggregateDeviceSubDeviceListKey, AggregateDeviceTapListKey
  }

  /** The seven top-level keys are distinct, so the description has seven entries. */
  lemma DescriptionKeysCount()
    ensures |DescriptionKeys| == 7
  {
    var names := ["name", "uid", "master", "private", "tapautostart", "subdevices", "taps"];
    assert DescriptionKeys == {names[0], names[1], names[2], names[3], names[4], names[5], names[6]};
    assert names[0][0] == 'n' && names[1][0] == 'u' && names[2][0] == 'm' && names[3][0] == 'p';
    assert names[4][1] == 'a' && names[5][0] == 's' && names[6][1] == 'a';
    assert names[4] != names[6] by { assert |names[4]| != |names[6]|; }
  }

  /** One entry of the sub-device list: a dictionary holding the device's UID. */
  function SubDeviceEntry(deviceUid: string): CFType {
    CFDictionary(map[SubDeviceUIDKey := CFString(deviceUid)])
  }

  /** The one entry of the tap list: drift compensation off and the tap's UUID. */
  function TapEntry(tapUuid: string): CFType {
    CFDictionary(map[SubTapDriftCompensationKey := CFBoolean(false), SubTapUIDKey := CFString(tapUuid)])
  }

  function SubDeviceList(deviceUids: seq<string>): seq<CFType> {
    seq(|deviceUids|, i requires 0 <= i < |deviceUids| => SubDeviceEntry(deviceUids[i]))
  }

  /** The description dictionary: name, UID, main sub-device, private and tap-auto-start both
      true, the sub-device list and a one-entry tap list. */
  function Build(spec: AggregateSpec): map<string, CFType> {
    map[
      AggregateDeviceNameKey := CFString(spec.name),
      AggregateDeviceUIDKey := CFString(spec.uid),
      AggregateDeviceMainSubDeviceKey := CFString(spec.mainSubDevice),
      AggregateDeviceIsPrivateKey := CFBoolean(true),
      AggregateDeviceTapAutoStartKey := CFBoolean(true),
      AggregateDeviceSubDeviceListKey := CFArray(SubDeviceList(spec.subDevices)),
      AggregateDeviceTapListKey := CFArray([TapEntry(spec.tapUuid)])
    ]
  }

  function ParseSubDevice(v: CFType): (r: Option<string>)
    ensures r.Some? ==> v == SubDeviceEntry(r.value)
  {
    if v.CFDictionary? && v.entries.Keys == {SubDeviceUIDKey} && v.entries[SubDeviceUIDKey].CFString? then
      assert v.entries == map[SubDeviceUIDKey := v.entries[SubDeviceUIDKey]];
      Some(v.entries[SubDeviceUIDKey].s)
    else None
  }

  /** Reads a sub-device list back; `None` unless every entry is a well-formed sub-device. */
  function ParseSubDevices(items: seq<CFType>): (r: Option<seq<string>>)
    ensures r.Some? ==> |r.value| == |items|
  {
    if items == [] then Some([])
    else
      match (ParseSubDevice(items[0]), ParseSubDevices(items[1..]))
      case (Some(u), Some(us)) => Some([u] + us)
      case _ => None
  }

  function ParseTap(v: CFType): (r: Option<string>)
    ensures r.Some? ==> v == TapEntry(r.value)
  {
    if && v.CFDictionary?
       && v.entries.Keys == {SubTapDriftCompensationKey, SubTapUIDKey}
       && v.entries[SubTapDriftCompensationKey] == CFBoolean(false)
       && v.entries[SubTapUIDKey].CFString?
    then
      var u := v.entries[SubTapUIDKey].s;
      assert v.entries == map[SubTapDriftCompensationKey := CFBoolean(false), SubTapUIDKey := CFString(u)];
      Some(u)
    else None
  }

  /** The strict reader: exactly the seven keys, both flags true, string name, UID and main
      sub-device, a well-formed sub-device list and exactly one well-formed tap. */
  function Parse(d: map<string, CFType>): Option<AggregateSpec> {
    if && d.Keys == DescriptionKeys
       && d[AggregateDeviceIsPrivateKey] == CFBoolean(true)
       && d[AggregateDeviceTapAutoStartKey] == CFBoolean(true)
       && d[AggregateDeviceNameKey].CFString?
       && d[AggregateDeviceUIDKey].CFString?
       && d[AggregateDeviceMainSubDeviceKey].CFString?
       && d[AggregateDeviceSubDeviceListKey].CFArray?
       && d[AggregateDeviceTapListKey].CFArray?
       && |d[AggregateDeviceTapListKey].items| == 1
    then
      match (ParseSubDevices(d[AggregateDeviceSubDeviceListKey].items), ParseTap(d[AggregateDeviceTapListKey].items[0]))
      case (Some(subDevices), Some(tapUuid)) =>
        Some(AggregateSpec(
          d[AggregateDeviceNameKey].s, d[AggregateDeviceUIDKey].s, d[AggregateDeviceMainSubDeviceKey].s,
          subDevices, tapUuid))
      case _ => None
    else None
  }

  lemma {:induction false} ParseSubDeviceList(deviceUids: seq<string>)
    ensures ParseSubDevices(SubDeviceList(deviceUids)) == Some(deviceUids)
  {
    var items := SubDeviceList(deviceUids);
    if deviceUids != [] {
      assert items[1..] == SubDeviceList(deviceUids[1..]);
      ParseSubDeviceList(deviceUids[1..]);
      assert items[0] == SubDeviceEntry(deviceUids[0]);
      assert map[SubDeviceUIDKey := CFString(deviceUids[0])].Keys == {SubDeviceUIDKey};
      assert [deviceUids[0]] + deviceUids[1..] == deviceUids;
    }
  }

  lemma {:induction false} SubDeviceListOfParse(items: seq<CFType>)
    requires ParseSubDevices(items).Some?
    ensures SubDeviceList(ParseSubDevices(items).value) == items
  {
    if items != [] {
      SubDeviceListOfParse(items[1..]);
      var uids := ParseSubDevices(items).value;
      assert uids[1..] == ParseSubDevices(items[1..]).value;
      assert SubDeviceList(uids)[1..] == SubDeviceList(uids[1..]);
    }
  }

  /** Reading a built description gives back the fields it was built from. */
  lemma ParseOfBuild(spec: AggregateSpec)
    ensures Parse(Build(spec)) == Some(spec)
  {
    var d := Build(spec);
    assert d.Keys == DescriptionKeys;
    ParseSubDeviceList(spec.subDevices);
    var tap := map[SubTapDriftCompensationKey := CFBoolean(false), SubTapUIDKey := CFString(spec.tapUuid)];
    assert tap.Keys == {SubTapDriftCompensationKey, SubTapUIDKey};
  }

  /** Every dictionary the reader accepts is the one built from what it reads: the reader
      admits no dictionary the builder would not produce. */
  lemma BuildOfParse(d: map<string, CFType>)
    requires Parse(d).Some?
    ensures Build(Parse(d).value) == d
  {
    var spec := Parse(d).value;
    SubDeviceListOfParse(d[AggregateDeviceSubDeviceListKey].items);
    assert d[AggregateDeviceTapListKey].items == [TapEntry(spec.tapUuid)];
    var b := Build(spec);
    assert b.Keys == d.Keys;
    forall k | k in d ensures b[k] == d[k] {
    }
  }

  /** Two builds agree exactly when their fields do: the description is a faithful, stable
      serialisation of its inputs. */
  lemma BuildInjective(a: AggregateSpec, b: AggregateSpec)
    ensures Build(a) == Build(b) <==> a == b
  {
    if Build(a) == Build(b) {
      ParseOfBuild(a);
      ParseOfBuild(b);
    }
  }

  /** The error `remove_aggregate_device` returns for a non-zero destroy status. */
  function DestroyError(status: int): string {
    "Failed to destroy aggregate device: " + IntToString(status)
  }

  /** `remove_aggregate_device`'s verdict on the status of `AudioHardwareDestroyAggregateDevice`. */
  function DestroyResult(status: int): (r: Result<(), string>)
    ensures r.Ok? <==> status == 0
    ensures r.Err? ==> r.error == DestroyError(status)
  {
    if status != 0 then Err(DestroyError(status)) else Ok(())
  }

  /** Distinct failing statuses give distinct messages: the message identifies the status. */
  lemma DestroyErrorIdentifiesStatus(a: int, b: int)
    requires DestroyError(a) == DestroyError(b)
    ensures a == b
  {
    var prefix := "Failed to destroy aggregate device: ";
    assert DestroyError(a)[|prefix|..] == IntToString(a);
    assert DestroyError(b)[|prefix|..] == IntToString(b);
    IntToStringInjective(a, b);
  }

  /** `create_aggregate_device`'s verdict on the status of `AudioHardwareCreateAggregateDevice`. */
  function CreateResult(status: int, tapId: AudioObjectId, aggregateDeviceId: AudioObjectId)
    : (r: Result<CreateAggregateDeviceResult, OsError>)
    ensures r.Ok? <==> status == 0
    ensures r.Ok? ==> r.value.tapId == tapId && r.value.aggregateDeviceId == aggregateDeviceId
    ensures r.Err? ==> r.error.status == status
  {
    if status == 0 then Ok(CreateAggregateDeviceResult(tapId, aggregateDeviceId)) else Err(OsError(status))
  }

  /** The message of the panic `expect("Failed to create tap")` raises: the text, a colon and
      the `Debug` form of the status. */
  function TapPanicMessage(status: int): string {
    "Failed to create tap: " + IntToString(status)
  }
}
