/** `audio/volume.rs`: reading the default output device and its volume, writing a volume,
    the linear fade, and the no-op versions used on platforms other than macOS. Volumes are
    exact reals; `f32` rounding is not modelled. */
module Volume {

  import opened Wrappers
  import opened CoreAudio

  /** Which `cfg(target_os)` branch is compiled. */
  datatype Platform = MacOS | OtherPlatform

  /** `get_default_output_device`: on macOS the property read's device id when its status is 0,
      else the status; elsewhere always device 0. */
  function GetDefaultOutputDevice(platform: Platform, status: int, deviceId: AudioObjectId)
    : (r: Result<AudioObjectId, int>)
    ensures platform == OtherPlatform ==> r == Ok(0)
    ensures platform == MacOS ==> (r.Ok? <==> status == 0)
    ensures platform == MacOS && r.Ok? ==> r.value == deviceId
    ensures platform == MacOS && r.Err? ==> r.error == status
  {
    match platform
    case OtherPlatform => Ok(0)
    case MacOS => if status == 0 then Ok(deviceId) else Err(status)
  }

  /** `get_device_volume`: on macOS the volume read when its status is 0, else the status;
      elsewhere always full volume. */
  function GetDeviceVolume(platform: Platform, status: int, volume: real): (r: Result<real, int>)
    ensures platform == OtherPlatform ==> r == Ok(1.0)
    ensures platform == MacOS ==> (r.Ok? <==> status == 0)
    ensures platform == MacOS && r.Ok? ==> r.value == volume
    ensures platform == MacOS && r.Err? ==> r.error == status
  {
    match platform
    case OtherPlatform => Ok(1.0)
    case MacOS => if status == 0 then Ok(volume) else Err(status)
  }

  /** `set_device_volume`: on macOS one property write whose status decides the result;
      elsewhere nothing is written and the result is `Ok`. */
  method SetDeviceVolume(hal: Hal, platform: Platform, device: AudioObjectId, volume: real, osStatus: int)
    returns (r: Result<(), int>)
    modifies hal
    ensures platform == OtherPlatform ==> r == Ok(()) && hal.log == old(hal.log)
    ensures platform == MacOS ==> hal.log == old(hal.log) + [HalCall.SetDeviceVolume(device, volume)]
    ensures platform == MacOS ==> r == (if osStatus == 0 then Ok(()) else Err(osStatus))
  {
    if platform == OtherPlatform {
      return Ok(());
    }
    var status := hal.SetDeviceVolume(device, volume, osStatus);
    if status == 0 {
      r := Ok(());
    } else {
      r := Err(status);
    }
  }

  /** The volume of write `i` (counted from 1) of a fade: `from - ((from - to) / steps) * i`. */
  function RampValue(from: real, to: real, steps: nat, i: nat): real
    requires steps > 0
  {
    from - ((from - to) / steps as real) * i as real
  }

  /** The volumes a fade writes, in order: one per step, starting one step away from `from`. */
  function Ramp(from: real, to: real, steps: nat): (vs: seq<real>)
    ensures |vs| == steps
  {
    if steps == 0 then [] else seq(steps, k requires 0 <= k < steps => RampValue(from, to, steps, k + 1))
  }

  function VolumeWrites(device: AudioObjectId, volumes: seq<real>): (calls: seq<HalCall>)
    ensures |calls| == |volumes|
    ensures forall k :: 0 <= k < |volumes| ==> calls[k] == HalCall.SetDeviceVolume(device, volumes[k])
  {
    seq(|volumes|, k requires 0 <= k < |volumes| => HalCall.SetDeviceVolume(device, volumes[k]))
  }

  /** `fade_volume` (macOS only): `steps` volume writes along the ramp, none when `steps` is 0;
      a failing write is ignored and the ramp continues. `writeStatus(i)` is the OS's answer
      to write `i`; the delay between writes is not modelled. */
  method FadeVolume(hal: Hal, device: AudioObjectId, from: real, to: real, steps: nat, writeStatus: nat -> int)
    modifies hal
    ensures hal.log == old(hal.log) + VolumeWrites(device, Ramp(from, to, steps))
  {
    // In f32 the step size of a zero-step fade is a division by zero whose value is never used.
    var stepSize := if steps == 0 then 0.0 else (from - to) / steps as real;
    var i := 1;
    while i <= steps
      invariant 1 <= i <= steps + 1
      invariant hal.log == old(hal.log) + VolumeWrites(device, Ramp(from, to, steps)[..i - 1])
    {
      var volume := from - stepSize * i as real;
      assert volume == Ramp(from, to, steps)[i - 1];
      var _ := SetDeviceVolume(hal, MacOS, device, volume, writeStatus(i));
      assert Ramp(from, to, steps)[..i] == Ramp(from, to, steps)[..i - 1] + [volume];
      i := i + 1;
    }
    assert Ramp(from, to, steps)[..steps] == Ramp(from, to, steps);
  }

  /** Write `i` of `steps` is the point a fraction `i / steps` of the way from `from` to `to`. */
  lemma RampValueIsInterpolation(from: real, to: real, steps: nat, i: nat)
    requires steps > 0
    ensures RampValue(from, to, steps, i) == from + (to - from) * (i as real / steps as real)
  {
    var n := steps as real;
    calc {
      ((from - to) / n) * i as real;
      (from - to) * (i as real / n);
    }
  }

  /** In exact arithmetic the last write of a non-empty fade is `to`. */
  lemma RampEndsAtTarget(from: real, to: real, steps: nat)
    requires steps > 0
    ensures Ramp(from, to, steps)[steps - 1] == to
  {
    RampValueIsInterpolation(from, to, steps, steps);
    assert steps as real / steps as real == 1.0;
  }

  /** Every written volume lies between `from` and `to`, and none equals `from` unless the fade
      goes nowhere. */
  lemma RampBetween(from: real, to: real, steps: nat, k: nat)
    requires k < steps
    ensures var v := Ramp(from, to, steps)[k];
      (if from <= to then from <= v <= to else to <= v <= from) && (v == from ==> from == to)
  {
    RampValueIsInterpolation(from, to, steps, k + 1);
    var t := (k + 1) as real / steps as real;
    assert 0.0 < t <= 1.0;
    var d := to - from;
    assert d * t == d - d * (1.0 - t);
    if from <= to {
      ProductSign(d, 1.0 - t);
      ProductSign(d, t);
    } else {
      ProductSign(-d, 1.0 - t);
      ProductSign(-d, t);
      assert d * t == -((-d) * t);
    }
  }

  /** The written volumes move monotonically from `from` towards `to`. */
  lemma RampMonotone(from: real, to: real, steps: nat, j: nat, k: nat)
    requires j <= k < steps
    ensures from <= to ==> Ramp(from, to, steps)[j] <= Ramp(from, to, steps)[k]
    ensures to <= from ==> Ramp(from, to, steps)[k] <= Ramp(from, to, steps)[j]
  {
    RampValueIsInterpolation(from, to, steps, j + 1);
    RampValueIsInterpolation(from, to, steps, k + 1);
    var s := (j + 1) as real / steps as real;
    var t := (k + 1) as real / steps as real;
    assert s <= t;
    var d := to - from;
    assert d * t - d * s == d * (t - s);
    if from <= to {
      ProductSign(d, t - s);
    } else {
      ProductSign(-d, t - s);
      assert d * (t - s) == -((-d) * (t - s));
    }
  }

  lemma ProductSign(a: real, b: real)
    requires a >= 0.0 && b >= 0.0
    ensures a * b >= 0.0
    ensures a > 0.0 && b > 0.0 ==> a * b > 0.0
  {
  }
}
