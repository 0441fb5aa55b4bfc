/** `audio/macos/aggregate_device.rs`: creating an aggregate device over the microphone and the
    output device plus a global process tap, and destroying it again. */
module MacAggregateDevice {

  import opened Wrappers
  import opened CoreAudio
  import opened AggregateDescription

  /** The description this variant builds: both devices as sub-devices, input first, and the
      output device as the main sub-device. */
  function Description(inputUid: string, outputUid: string, name: string, uid: string, tapUuid: string)
    : (d: map<string, CFType>)
    ensures Parse(d) == Some(AggregateSpec(name, uid, outputUid, [inputUid, outputUid], tapUuid))
  {
    var spec := AggregateSpec(name, uid, outputUid, [inputUid, outputUid], tapUuid);
    ParseOfBuild(spec);
    Build(spec)
  }

  /** The description has exactly the seven keys, and its main sub-device is one of its
      sub-devices (the output device, listed second). */
  lemma DescriptionWellFormed(inputUid: string, outputUid: string, name: string, uid: string, tapUuid: string)
    ensures |Description(inputUid, outputUid, name, uid, tapUuid)| == 7
    ensures Description(inputUid, outputUid, name, uid, tapUuid)[AggregateDeviceMainSubDeviceKey] == CFString(outputUid)
    ensures var spec := Parse(Description(inputUid, outputUid, name, uid, tapUuid)).value;
      spec.mainSubDevice in spec.subDevices && spec.subDevices[1] == spec.mainSubDevice
  {
    var d := Description(inputUid, outputUid, name, uid, tapUuid);
    BuildOfParse(d);
    DescriptionKeysCount();
    assert d.Keys == DescriptionKeys;
  }

  /** `create_aggregate_device`: the tap first (a failing tap panics before any aggregate is
      requested), then one creation call with the description; status 0 gives both ids. */
  method CreateAggregateDevice(
    hal: Hal, inputUid: string, outputUid: string, aggregateDeviceName: string, aggregateDeviceUid: string,
    os: CreationAnswers)
    returns (r: Outcome<Result<CreateAggregateDeviceResult, OsError>>)
    modifies hal
    ensures var tap := StereoGlobalTapButExclude([], os.tapUuid);
      if os.tapStatus != 0 then
        && r == Panicked(TapPanicMessage(os.tapStatus))
        && hal.log == old(hal.log) + [HalCall.CreateProcessTap(tap)]
      else
        && r == Returned(CreateResult(os.createStatus, os.tapId, os.aggregateDeviceId))
        && hal.log == old(hal.log) + [HalCall.CreateProcessTap(tap),
             HalCall.CreateAggregateDevice(Description(inputUid, outputUid, aggregateDeviceName, aggregateDeviceUid, os.tapUuid))]
  {
    var tapDescription := StereoGlobalTapButExclude([], os.tapUuid);
    var tapStatus, tapId := hal.CreateProcessTap(tapDescription, os.tapStatus, os.tapId);
    if tapStatus != 0 {
      return Panicked(TapPanicMessage(tapStatus));
    }
    var description := Description(inputUid, outputUid, aggregateDeviceName, aggregateDeviceUid, tapDescription.uuid);
    var status, aggregateDeviceId := hal.CreateAggregateDevice(description, os.createStatus, os.aggregateDeviceId);
    r := Returned(CreateResult(status, tapId, aggregateDeviceId));
  }

  /** `remove_aggregate_device`: one destroy call; `Ok` iff its status is 0. */
  method RemoveAggregateDevice(hal: Hal, deviceId: AudioObjectId, osStatus: int) returns (r: Result<(), string>)
    modifies hal
    ensures r == DestroyResult(osStatus)
    ensures hal.log == old(hal.log) + [HalCall.DestroyAggregateDevice(deviceId)]
  {
    var result := hal.DestroyAggregateDevice(deviceId, osStatus);
    if result != 0 {
      return Err(DestroyError(result));
    }
    r := Ok(());
  }
}
