/** `audio/macos/helpers.rs`: finding a device by name in the OS's device enumeration, making
    the first match the default output device, and reading a tap's stream format. */
module DeviceHelpers {

  import opened Wrappers
  import opened Text
  import opened CoreAudio

  /** One enumerated device: its id and what `get_device_name` answered for it (`None` when the
      name lookup failed). */
  datatype Device = Device(id: AudioObjectId, name: Option<string>)

  /** The fields of an `AudioStreamBasicDescription`. */
  datatype StreamFormat = StreamFormat(
    sampleRate: real, formatId: nat, formatFlags: nat, bytesPerPacket: nat, framesPerPacket: nat,
    bytesPerFrame: nat, channelsPerFrame: nat, bitsPerChannel: nat)

  /** Device `i` is the first whose name lookup succeeds with `name`. */
  ghost predicate IsFirstMatch(devices: seq<Device>, name: string, i: nat)
    requires i < |devices|
  {
    devices[i].name == Some(name) && forall j :: 0 <= j < i ==> devices[j].name != Some(name)
  }

  /** `Iterator::find` over the enumeration: the id of the first device whose name lookup
      succeeds with `name`; devices whose lookup fails never match. */
  function FindDevice(devices: seq<Device>, name: string): (r: Option<AudioObjectId>)
    ensures r.None? <==> forall i :: 0 <= i < |devices| ==> devices[i].name != Some(name)
    ensures r.Some? ==> exists i :: 0 <= i < |devices| && IsFirstMatch(devices, name, i) && devices[i].id == r.value
  {
    if devices == [] then None
    else if devices[0].name == Some(name) then
      assert IsFirstMatch(devices, name, 0);
      Some(devices[0].id)
    else
      var rest := FindDevice(devices[1..], name);
      assert forall i :: 1 <= i < |devices| ==> devices[i] == devices[1..][i - 1];
      assert rest.Some? ==> exists i :: 1 <= i < |devices| && IsFirstMatch(devices, name, i) && devices[i].id == rest.value by {
        if rest.Some? {
          var k :| 0 <= k < |devices[1..]| && IsFirstMatch(devices[1..], name, k) && devices[1..][k].id == rest.value;
          assert IsFirstMatch(devices, name, k + 1);
        }
      }
      rest
  }

  /** `check_device_exists`: a failed enumeration panics; otherwise the answer is whether some
      device's name lookup succeeds with the target name, the same device `set_default_device`
      would pick. */
  method CheckDeviceExists(enumeration: Result<seq<Device>, string>, targetName: string) returns (r: Outcome<bool>)
    ensures enumeration.Err? <==> r.Panicked?
    ensures enumeration.Err? ==> r.message == "failed to get audio device ids"
    ensures enumeration.Ok? ==>
      (r.value <==> exists i :: 0 <= i < |enumeration.value| && enumeration.value[i].name == Some(targetName))
    ensures enumeration.Ok? ==> r.value == FindDevice(enumeration.value, targetName).Some?
  {
    if enumeration.Err? {
      return Panicked("failed to get audio device ids");
    }
    var deviceIds := enumeration.value;
    var i := 0;
    while i < |deviceIds|
      invariant 0 <= i <= |deviceIds|
      invariant forall j :: 0 <= j < i ==> deviceIds[j].name != Some(targetName)
    {
      match deviceIds[i].name {
        case Some(name) =>
          if name == targetName {
            return Returned(true);
          }
        case None =>
      }
      i := i + 1;
    }
    r := Returned(false);
  }

  function DeviceNotFound(deviceName: string): string {
    "Device '" + deviceName + "' not found"
  }

  function SetDefaultFailed(status: int): string {
    "Failed to set default device. Error code: " + IntToString(status)
  }

  /** `set_default_device`: a failed enumeration is an error (not a panic); with no device of
      that name nothing is written; otherwise the first match becomes the default output device
      and the write's status decides the result. */
  method SetDefaultDevice(hal: Hal, enumeration: Result<seq<Device>, string>, deviceName: string, osStatus: int)
    returns (r: Result<(), string>)
    modifies hal
    ensures enumeration.Err? ==> r == Err(enumeration.error) && hal.log == old(hal.log)
    ensures enumeration.Ok? && FindDevice(enumeration.value, deviceName).None? ==>
      r == Err(DeviceNotFound(deviceName)) && hal.log == old(hal.log)
    ensures enumeration.Ok? && FindDevice(enumeration.value, deviceName).Some? ==>
      && hal.log == old(hal.log) + [HalCall.SetDefaultOutputDevice(FindDevice(enumeration.value, deviceName).value)]
      && r == (if osStatus != 0 then Err(SetDefaultFailed(osStatus)) else Ok(()))
  {
    if enumeration.Err? {
      return Err(enumeration.error);
    }
    var found := FindDevice(enumeration.value, deviceName);
    if found.None? {
      return Err(DeviceNotFound(deviceName));
    }
    var result := hal.SetDefaultOutputDevice(found.value, osStatus);
    if result != 0 {
      return Err(SetDefaultFailed(result));
    }
    r := Ok(());
  }

  /** `get_tap_stream_audio_description`: the format the property read filled in when its status
      is 0, otherwise the status as an error. */
  function GetTapStreamAudioDescription(status: int, format: StreamFormat): (r: Result<StreamFormat, OsError>)
    ensures r.Ok? <==> status == 0
    ensures r.Ok? ==> r.value == format
    ensures r.Err? ==> r.error == OsError(status)
  {
    if status == 0 then Ok(format) else Err(OsError(status))
  }
}
