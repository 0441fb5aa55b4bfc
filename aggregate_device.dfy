/** `audio/aggregate_device.rs`: the variant whose aggregate device has the output device as
    its only sub-device; the input UID it is given is not used. */
module AggregateDevice {

  import opened Wrappers
  import opened CoreAudio
  import opened AggregateDescription

  /** The description this variant builds: the output device alone as sub-device and as main
      sub-device; `inputUid` is accepted and ignored. */
  function Description(inputUid: string, outputUid: string, name: string, uid: string, tapUuid: string)
    : (d: map<string, CFType>)
    ensures Parse(d) == Some(AggregateSpec(name, uid, outputUid, [outputUid], tapUuid))
  {
    var spec := AggregateSpec(name, uid, outputUid, [outputUid], tapUuid);
    ParseOfBuild(spec);
    Build(spec)
  }

  /** The input UID has no influence on the description. */
  lemma DescriptionIgnoresInput(a: string, b: string, outputUid: string, name: string, uid: string, tapUuid: string)
    ensures Description(a, outputUid, name, uid, tapUuid) == Description(b, outputUid, name, uid, tapUuid)
  {
    var d := Description(a, outputUid, name, uid, tapUuid);
    var e := Description(b, outputUid, name, uid, tapUuid);
    BuildOfParse(d);
    BuildOfParse(e);
  }

  /** Seven keys, and the main sub-device is the single sub-device. */
  lemma DescriptionWellFormed(inputUid: string, outputUid: string, name: string, uid: string, tapUuid: string)
    ensures |Description(inputUid, outputUid, name, uid, tapUuid)| == 7
    ensures var spec := Parse(Description(inputUid, outputUid, name, uid, tapUuid)).value;
      spec.subDevices == [spec.mainSubDevice]
  {
    var d := Description(inputUid, outputUid, name, uid, tapUuid);
    BuildOfParse(d);
    DescriptionKeysCount();
    assert d.Keys == DescriptionKeys;
  }

  /** `create_aggregate_device`: a tap excluding no process first (a failing tap panics before
      any aggregate is requested), then one creation call; status 0 gives both ids. */
  method CreateAggregateDevice(
    hal: Hal, inputUid: string, outputUid: string, aggregateDeviceName: string, aggregateDeviceUid: string,
    os: CreationAnswers)
    returns (r: Outcome<Result<CreateAggregateDeviceResult, OsError>>)
    modifies hal
    ensures var tap := StereoGlobalTapButExclude([], os.tapUuid);
      if os.tapStatus != 0 then
        && r == Panicked(TapPanicMessage(os.tapStatus))
        && hal.log == old(hal.log) + [HalCall.CreateProcessTap(tap)]
      else
        && r == Returned(CreateResult(os.createStatus, os.tapId, os.aggregateDeviceId))
        && hal.log == old(hal.log) + [HalCall.CreateProcessTap(tap),
             HalCall.CreateAggregateDevice(Description(inputUid, outputUid, aggregateDeviceName, aggregateDeviceUid, os.tapUuid))]
  {
    var tapDescription := StereoGlobalTapButExclude([], os.tapUuid);
    var tapStatus, tapId := hal.CreateProcessTap(tapDescription, os.tapStatus, os.tapId);
    if tapStatus != 0 {
      return Panicked(TapPanicMessage(tapStatus));
    }
    var description := Description(inputUid, outputUid, aggregateDeviceName, aggregateDeviceUid, tapDescription.uuid);
    var status, aggregateDeviceId := hal.CreateAggregateDevice(description, os.createStatus, os.aggregateDeviceId);
    r := Returned(CreateResult(status, tapId, aggregateDeviceId));
  }

  /** `remove_aggregate_device`: one destroy call; `Ok` iff its status is 0. */
  method RemoveAggregateDevice(hal: Hal, deviceId: AudioObjectId, osStatus: int) returns (r: Result<(), string>)
    modifies hal
    ensures r == DestroyResult(osStatus)
    ensures hal.log == old(hal.log) + [HalCall.DestroyAggregateDevice(deviceId)]
  {
    var result := hal.DestroyAggregateDevice(deviceId, osStatus);
    if result != 0 {
      return Err(DestroyError(result));
    }
    r := Ok(());
  }
}
