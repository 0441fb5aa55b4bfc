/** The slice of CoreAudio and CoreFoundation the audio code talks to: property-list values,
    the dictionary keys of an aggregate-device description (their values are those of
    CoreAudio's `AudioHardware.h`), the error wrapper for an `OSStatus`, and the HAL itself as a
    log of the calls issued to it. The OS is an oracle: each call's answer (a status, an id) is
    supplied by the caller of the model, and the HAL records what was asked of it. */
module CoreAudio {

  /** A CoreFoundation property-list value as the description builders assemble it. */
  datatype CFType =
    | CFString(s: string)
    | CFBoolean(b: bool)
    | CFArray(items: seq<CFType>)
    | CFDictionary(entries: map<string, CFType>)

  const AggregateDeviceNameKey: string := "name"
  const AggregateDeviceUIDKey: string := "uid"
  const AggregateDeviceMainSubDeviceKey: string := "master"
  const AggregateDeviceIsPrivateKey: string := "private"
  const AggregateDeviceTapAutoStartKey: string := "tapautostart"
  const AggregateDeviceSubDeviceListKey: string := "subdevices"
  const AggregateDeviceTapListKey: string := "taps"
  const SubDeviceUIDKey: string := "uid"
  const SubTapUIDKey: string := "uid"
  const SubTapDriftCompensationKey: string := "drift"

  /** `coreaudio::Error::from_os_status(status).unwrap_err()` for a non-zero status. */
  datatype OsError = OsError(status: int)

  /** A `CATapDescription`: a stereo global tap excluding the listed processes, and the UUID the
      description object was given when it was initialised. */
  datatype TapDescription = StereoGlobalTapButExclude(excludedProcesses: seq<int>, uuid: string)

  type AudioObjectId = nat

  /** The OS calls that change something, in the order they are issued. */
  datatype HalCall =
    | CreateProcessTap(tap: TapDescription)
    | CreateAggregateDevice(description: map<string, CFType>)
    | DestroyAggregateDevice(device: AudioObjectId)
    | SetDefaultOutputDevice(device: AudioObjectId)
    | SetDeviceVolume(device: AudioObjectId, volume: real)

  /** The audio HAL seen from this process: the log of state-changing calls made to it. */
  class Hal {
    var log: seq<HalCall>

    constructor ()
      ensures log == []
    {
      log := [];
    }

    /** `AudioHardwareCreateProcessTap`: the status, and the tap id written to the out-parameter. */
    method CreateProcessTap(description: TapDescription, status: int, tapId: AudioObjectId)
      returns (r: int, outTapId: AudioObjectId)
      modifies this
      ensures r == status && outTapId == tapId
      ensures log == old(log) + [HalCall.CreateProcessTap(description)]
    {
      log := log + [HalCall.CreateProcessTap(description)];
      r, outTapId := status, tapId;
    }

    /** `AudioHardwareCreateAggregateDevice`: the status and the id written to the out-parameter. */
    method CreateAggregateDevice(description: map<string, CFType>, status: int, deviceId: AudioObjectId)
      returns (r: int, outDeviceId: AudioObjectId)
      modifies this
      ensures r == status && outDeviceId == deviceId
      ensures log == old(log) + [HalCall.CreateAggregateDevice(description)]
    {
      log := log + [HalCall.CreateAggregateDevice(description)];
      r, outDeviceId := status, deviceId;
    }

    /** `AudioHardwareDestroyAggregateDevice`. */
    method DestroyAggregateDevice(device: AudioObjectId, status: int) returns (r: int)
      modifies this
      ensures r == status
      ensures log == old(log) + [HalCall.DestroyAggregateDevice(device)]
    {
      log := log + [HalCall.DestroyAggregateDevice(device)];
      r := status;
    }

    /** `AudioObjectSetPropertyData` on the system object's default-output-device property. */
    method SetDefaultOutputDevice(device: AudioObjectId, status: int) returns (r: int)
      modifies this
      ensures r == status
      ensures log == old(log) + [HalCall.SetDefaultOutputDevice(device)]
    {
      log := log + [HalCall.SetDefaultOutputDevice(device)];
      r := status;
    }

    /** `AudioObjectSetPropertyData` on a device's virtual main volume. */
    method SetDeviceVolume(device: AudioObjectId, volume: real, status: int) returns (r: int)
      modifies this
      ensures r == status
      ensures log == old(log) + [HalCall.SetDeviceVolume(device, volume)]
    {
      log := log + [HalCall.SetDeviceVolume(device, volume)];
      r := status;
    }
  }
}
