/** `handlers/audio_handler.rs`: the recording lifecycle over the shared `AppState`, the silence
    gate in the input-stream callback, the interpretation of the transcription server's reply,
    and the event emitted for a transcript. Start and stop are atomic steps; the recording
    thread is the explicit step `FinishWorker`. */
module AudioHandler {

  import opened Wrappers
  import opened Text
  import opened Json
  import opened CoreAudio
  import opened Volume
  import opened Recorder

  /** `state::RecordingState`. */
  datatype RecordingState = Stopped | Recording | Paused

  // ---------------------------------------------------------------- lifecycle

  const AlreadyInProgress: string := "Recording already in progress"
  const NotStarted: string := "Recording not started"

  datatype Command = Start | Stop

  /** The `match` on the recording state at the head of `start_recording` and
      `stop_recording`: start only from `Stopped`, stop from anything else. */
  function Transition(s: RecordingState, c: Command): (r: Result<RecordingState, string>)
    ensures c == Start ==> (r.Ok? <==> s == Stopped)
    ensures c == Stop ==> (r.Ok? <==> s != Stopped)
    ensures r.Ok? ==> r.value == if c == Start then Recording else Stopped
    ensures r.Err? ==> r.error == if c == Start then AlreadyInProgress else NotStarted
  {
    match c
    case Start => if s == Stopped then Ok(Recording) else Err(AlreadyInProgress)
    case Stop => if s == Stopped then Err(NotStarted) else Ok(Stopped)
  }

  /** The state after a command: a refused command leaves it as it was. */
  function Apply(s: RecordingState, c: Command): RecordingState {
    match Transition(s, c)
    case Ok(next) => next
    case Err(_) => s
  }

  function Run(s: RecordingState, commands: seq<Command>): RecordingState
    decreases |commands|
  {
    if commands == [] then s else Run(Apply(s, commands[0]), commands[1..])
  }

  /** No command assigns `Paused`: from any other state it is never reached. */
  lemma {:induction false} RunNeverPauses(s: RecordingState, commands: seq<Command>)
    requires s != Paused
    ensures Run(s, commands) != Paused
    decreases |commands|
  {
    if commands != [] {
      RunNeverPauses(Apply(s, commands[0]), commands[1..]);
    }
  }

  /** Start followed by stop returns to `Stopped`; a second start before the stop is refused. */
  lemma StartStopCycle(s: RecordingState)
    requires s == Stopped
    ensures Apply(s, Start) == Recording && Apply(Apply(s, Start), Stop) == Stopped
    ensures Transition(Apply(s, Start), Start) == Err(AlreadyInProgress)
    ensures Run(s, [Start, Start, Stop]) == Stopped
  {
  }

  // ---------------------------------------------------------------- silence gate

  const SilenceThreshold: real := 0.00001

  function Abs(x: real): (a: real)
    ensures a >= 0.0 && (a == x || a == -x)
  {
    if x < 0.0 then -x else x
  }

  function Max(a: real, b: real): real {
    if a < b then b else a
  }

  /** `data.iter().map(|x| x.abs()).fold(0.0, f32::max)`: the largest absolute sample. */
  function PeakAmplitude(data: seq<real>): (p: real)
    ensures p >= 0.0
    ensures forall i :: 0 <= i < |data| ==> Abs(data[i]) <= p
    ensures p == 0.0 || exists i :: 0 <= i < |data| && p == Abs(data[i])
    decreases |data|
  {
    if data == [] then 0.0
    else
      var rest := PeakAmplitude(data[..|data| - 1]);
      assert forall i :: 0 <= i < |data| - 1 ==> data[..|data| - 1][i] == data[i];
      Max(rest, Abs(data[|data| - 1]))
  }

  /** A buffer carries signal when its peak is strictly above the threshold. */
  predicate HasSignal(data: seq<real>) {
    PeakAmplitude(data) > SilenceThreshold
  }

  /** The gate in terms of the samples: some sample's magnitude exceeds the threshold. */
  lemma HasSignalIff(data: seq<real>)
    ensures HasSignal(data) <==> exists i :: 0 <= i < |data| && Abs(data[i]) > SilenceThreshold
  {
  }

  // ---------------------------------------------------------------- reply interpretation

  const NoDialogMessage: string := "No dialog detected"
  const UnknownError: string := "Unknown error"

  /** The field holding the transcript: the refined text or the raw one. */
  function TranscriptKey(refine: bool): string {
    if refine then "refined" else "transcription"
  }

  function MissingTranscript(refine: bool): string {
    if refine then "No refined transcription in response" else "No transcription in response"
  }

  /** The decision half of `transcribe_audio`, in precedence order: an `error` member wins (its
      text, or "Unknown error" when it is not a string); then the "No dialog detected" message
      gives an empty transcript; then the transcript field must be a string. */
  function InterpretReply(reply: Json, refine: bool): (r: Result<string, string>)
    ensures Get(reply, "error").Some? ==> r.Err?
    ensures Get(reply, "error").Some? ==>
      r.error == if Get(reply, "error").value.JString? then Get(reply, "error").value.str else UnknownError
    ensures Get(reply, "error").None? && StrField(reply, "message") == Some(NoDialogMessage) ==> r == Ok("")
    ensures Get(reply, "error").None? && StrField(reply, "message") != Some(NoDialogMessage) ==>
      (r.Ok? <==> StrField(reply, TranscriptKey(refine)).Some?)
    ensures Get(reply, "error").None? && StrField(reply, "message") != Some(NoDialogMessage) ==>
      r == match StrField(reply, TranscriptKey(refine))
           case Some(t) => Ok(t)
           case None => Err(MissingTranscript(refine))
  {
    match Get(reply, "error")
    case Some(error) => Err(match AsStr(error) case Some(m) => m case None => UnknownError)
    case None =>
      if Get(reply, "message").Some? && AsStr(Get(reply, "message").value) == Some(NoDialogMessage) then Ok("")
      else match StrField(reply, TranscriptKey(refine))
        case Some(t) => Ok(t)
        case None => Err(MissingTranscript(refine))
  }

  /** What the server means by a reply. */
  datatype ServerReply = ServerError(message: string) | NoDialog | Transcribed(text: string)

  /** The reply the server sends for each meaning, in the form for `refine`. */
  function EncodeReply(reply: ServerReply, refine: bool): Json {
    match reply
    case ServerError(m) => JObject(map["error" := JString(m)])
    case NoDialog => JObject(map["message" := JString(NoDialogMessage)])
    case Transcribed(t) => JObject(map[TranscriptKey(refine) := JString(t)])
  }

  function Meaning(reply: ServerReply): Result<string, string> {
    match reply
    case ServerError(m) => Err(m)
    case NoDialog => Ok("")
    case Transcribed(t) => Ok(t)
  }

  /** Interpreting a well-formed reply recovers what the server meant. */
  lemma InterpretEncodedReply(reply: ServerReply, refine: bool)
    ensures InterpretReply(EncodeReply(reply, refine), refine) == Meaning(reply)
  {
  }

  /** A transcript sent under the other mode's field is not found. */
  lemma InterpretWrongField(text: string, refine: bool)
    ensures InterpretReply(EncodeReply(Transcribed(text), !refine), refine) == Err(MissingTranscript(refine))
  {
    assert TranscriptKey(!refine) != TranscriptKey(refine);
  }

  /** An `error` member takes precedence over a message and a transcript in the same reply. */
  lemma ErrorTakesPrecedence(message: string, text: string, refine: bool)
    ensures
      var reply := JObject(map["error" := JString(message), "message" := JString(NoDialogMessage),
                               TranscriptKey(refine) := JString(text)]);
      InterpretReply(reply, refine) == Err(message)
  {
  }

  /** The outcome of the whole transcription request: a failure before a reply was parsed
      (opening the file, the HTTP exchange, invalid JSON) or the parsed reply. */
  datatype TranscribeAnswer = RequestFailed(message: string) | Replied(body: Json)

  function TranscriptionResult(answer: TranscribeAnswer, refine: bool): (r: Result<string, string>)
    ensures answer.RequestFailed? ==> r == Err(answer.message)
    ensures answer.Replied? ==> r == InterpretReply(answer.body, refine)
  {
    match answer
    case RequestFailed(m) => Err(m)
    case Replied(body) => InterpretReply(body, refine)
  }

  // ---------------------------------------------------------------- events

  datatype Event = Event(name: string, payload: string)

  const RefinedComplete: string := "refined-transcription-complete"
  const TranscriptionComplete: string := "transcription-complete"
  const TranscriptionError: string := "transcription-error"

  /** The event emitted for a transcription result: none for an empty transcript. */
  function EventFor(refine: bool, result: Result<string, string>): (e: Option<Event>)
    ensures e.None? <==> result == Ok("")
    ensures e.Some? ==> e.value.payload == if result.Ok? then result.value else result.error
    ensures e.Some? ==> (e.value.name == TranscriptionError <==> result.Err?)
    ensures e.Some? && result.Ok? ==> e.value.name == if refine then RefinedComplete else TranscriptionComplete
  {
    match result
    case Ok(transcript) =>
      if transcript != [] then Some(Event(if refine then RefinedComplete else TranscriptionComplete, transcript))
      else None
    case Err(e) => Some(Event(TranscriptionError, e))
  }

  function Emission(e: Option<Event>): seq<Event> {
    if e.Some? then [e.value] else []
  }

  /** End to end: a transcribed reply is announced with its text under the mode's event, a
      "no dialog" reply is announced not at all, and a server error as an error event. */
  lemma EventForServerReply(reply: ServerReply, refine: bool)
    ensures var e := EventFor(refine, InterpretReply(EncodeReply(reply, refine), refine));
      match reply
      case ServerError(m) => e == Some(Event(TranscriptionError, m))
      case NoDialog => e.None?
      case Transcribed(t) =>
        e == if t == [] then None
             else Some(Event(if refine then RefinedComplete else TranscriptionComplete, t))
  {
    InterpretEncodedReply(reply, refine);
  }

  // ---------------------------------------------------------------- the stop channel

  /** The `mpsc` channel the recording thread waits on: `signals` stop signals are queued, and
      sending fails once the thread has ended and dropped its receiver. */
  class StopChannel {
    var receiverAlive: bool
    var signals: nat

    constructor ()
      ensures receiverAlive && signals == 0
    {
      receiverAlive := true;
      signals := 0;
    }

    /** `Sender::send`, whose error displays as "sending on a closed channel". */
    method Send() returns (r: Result<(), string>)
      modifies this
      ensures r == if old(receiverAlive) then Ok(()) else Err("sending on a closed channel")
      ensures receiverAlive == old(receiverAlive)
      ensures signals == if old(receiverAlive) then old(signals) + 1 else old(signals)
    {
      if receiverAlive {
        signals := signals + 1;
        r := Ok(());
      } else {
        r := Err("sending on a closed channel");
      }
    }

    /** The recording thread ends and drops its receiver. */
    method CloseReceiver()
      modifies this
      ensures !receiverAlive && signals == old(signals)
    {
      receiverAlive := false;
    }
  }

  /** The end of the recording thread: once its loop is left, it takes the writer out of the
      shared slot and finalizes it, then drops its receiver. */
  method FinishWorker(channel: StopChannel, slot: WriterSlot)
    modifies channel, slot, if slot.entry.Some? then {slot.entry.value.0} else {}
    ensures slot.entry == None && !channel.receiverAlive
    ensures channel.signals == old(channel.signals)
    ensures old(slot.entry).Some? ==>
      var w := old(slot.entry).value.0;
      w.finalized && w.samples == old(w.samples) && w.attempts == old(w.attempts)
  {
    var taken := slot.Take();
    if taken.Some? {
      taken.value.0.Finalize();
    }
    channel.CloseReceiver();
  }

  // ---------------------------------------------------------------- the application state

  /** What `start_recording` meets along the way: the default output device and its volume
      (status and value of each property read), the temporary file, the default input device
      (its name and default configuration), the writer creation and the write failures of the
      file once created. */
  datatype InputDevice = InputDevice(name: Result<string, string>, defaultConfig: Result<StreamConfig, string>)

  datatype StartEnv = StartEnv(
    outputStatus: int, outputDevice: AudioObjectId,
    volumeStatus: int, volume: real,
    tempFile: Result<string, string>,
    inputDevice: Option<InputDevice>,
    writerCreate: Result<(), string>,
    writeRefusals: set<nat>)

  /** The first failing step of `start_recording` after the state has been set, with its
      message, or `None` when every step succeeds. */
  function StartFailure(env: StartEnv): (r: Option<string>)
    ensures r.None? <==>
      (env.outputStatus == 0 && env.volumeStatus == 0 && env.tempFile.Ok?
       && env.inputDevice.Some? && env.inputDevice.value.name.Ok?
       && env.inputDevice.value.defaultConfig.Ok? && env.writerCreate.Ok?)
    ensures env.outputStatus != 0 ==> r == Some("Failed to get default output device: " + IntToString(env.outputStatus))
    ensures env.outputStatus == 0 && env.volumeStatus != 0 ==>
      r == Some("Failed to get device volume: " + IntToString(env.volumeStatus))
    ensures env.outputStatus == 0 && env.volumeStatus == 0 && env.tempFile.Err? ==>
      r == Some("Failed to create temp file: " + env.tempFile.error)
    ensures env.outputStatus == 0 && env.volumeStatus == 0 && env.tempFile.Ok? && env.inputDevice.None? ==>
      r == Some("No input device available")
    ensures env.outputStatus == 0 && env.volumeStatus == 0 && env.tempFile.Ok? && env.inputDevice.Some? ==>
      var device := env.inputDevice.value;
      && (device.name.Err? ==> r == Some(device.name.error))
      && (device.name.Ok? && device.defaultConfig.Err? ==> r == Some(device.defaultConfig.error))
      && (device.name.Ok? && device.defaultConfig.Ok? && env.writerCreate.Err? ==> r == Some(env.writerCreate.error))
  {
    match GetDefaultOutputDevice(MacOS, env.outputStatus, env.outputDevice)
    case Err(s) => Some("Failed to get default output device: " + IntToString(s))
    case Ok(_) =>
      match GetDeviceVolume(MacOS, env.volumeStatus, env.volume)
      case Err(s) => Some("Failed to get device volume: " + IntToString(s))
      case Ok(_) =>
        match env.tempFile
        case Err(e) => Some("Failed to create temp file: " + e)
        case Ok(_) =>
          match env.inputDevice
          case None => Some("No input device available")
          case Some(device) =>
            if device.name.Err? then Some(device.name.error)
            else if device.defaultConfig.Err? then Some(device.defaultConfig.error)
            else if env.writerCreate.Err? then Some(env.writerCreate.error)
            else None
  }

  /** A transcription request as sent to the server. */
  datatype TranscriptionRequest = TranscriptionRequest(userId: string, token: string, filePath: string, refine: bool)

  /** `state::AppState` as the recording handlers use it; `existingUser` is the stored user's
      id, `requests` the transcription requests sent and `emitted` the events emitted. */
  class AppState {
    var recordingState: RecordingState
    var isRecording: bool
    var audioDeviceId: Option<AudioObjectId>
    var originalVolume: Option<real>
    var recordingSender: Option<StopChannel>
    var audioWriter: Option<WriterSlot>
    var tempFile: Option<string>
    var existingUser: Option<string>
    var requests: seq<TranscriptionRequest>
    var emitted: seq<Event>

    /** The recording flag is only ever up while the state is `Recording`, and nothing enters
        `Paused`. */
    predicate Valid()
      reads this
    {
      recordingState != Paused && (isRecording ==> recordingState == Recording)
    }

    constructor (existingUser: Option<string>)
      ensures Valid()
      ensures recordingState == Stopped && !isRecording
      ensures audioDeviceId == None && originalVolume == None && recordingSender == None
      ensures audioWriter == None && tempFile == None
      ensures this.existingUser == existingUser && requests == [] && emitted == []
    {
      recordingState := Stopped;
      isRecording := false;
      audioDeviceId := None;
      originalVolume := None;
      recordingSender := None;
      audioWriter := None;
      tempFile := None;
      this.existingUser := existingUser;
      requests := [];
      emitted := [];
    }

    /** `start_recording`. From `Stopped` the state becomes `Recording` first, and a later
        failing step returns its message with the state left at `Recording` and only the slots
        filled before it; on success every slot holds the new session, whose writer is empty and
        has the WAV format of the input configuration. */
    method StartRecording(env: StartEnv) returns (r: Result<(), string>)
      modifies this
      ensures recordingState == Apply(old(recordingState), Start)
      ensures old(Valid()) ==> Valid()
      ensures existingUser == old(existingUser) && requests == old(requests) && emitted == old(emitted)
      ensures old(recordingState) != Stopped ==> r == Err(AlreadyInProgress) && unchanged(this)
      ensures old(recordingState) == Stopped ==>
        (r.Ok? <==> StartFailure(env).None?) && (r.Err? ==> r.error == StartFailure(env).value)
      ensures old(recordingState) == Stopped ==>
        audioDeviceId == (if env.outputStatus == 0 then Some(env.outputDevice) else old(audioDeviceId))
      ensures old(recordingState) == Stopped ==>
        originalVolume == (if env.outputStatus == 0 && env.volumeStatus == 0 then Some(env.volume) else old(originalVolume))
      ensures r.Err? ==>
        (isRecording == old(isRecording) && recordingSender == old(recordingSender)
         && audioWriter == old(audioWriter) && tempFile == old(tempFile))
      ensures r.Ok? ==>
        && isRecording
        && tempFile == Some(env.tempFile.value)
        && recordingSender.Some? && fresh(recordingSender.value)
        && recordingSender.value.receiverAlive && recordingSender.value.signals == 0
        && audioWriter.Some? && fresh(audioWriter.value) && audioWriter.value.entry.Some?
        && var (w, path) := audioWriter.value.entry.value;
           fresh(w) && path == env.tempFile.value && w.path == path && w.samples == []
           && w.refused == env.writeRefusals && w.attempts == 0
           && !w.finalized && w.spec == WavSpecFromConfig(env.inputDevice.value.defaultConfig.value)
    {
      if recordingState != Stopped {
        return Err(AlreadyInProgress);
      }
      recordingState := Recording;

      var deviceId := GetDefaultOutputDevice(MacOS, env.outputStatus, env.outputDevice);
      if deviceId.Err? {
        return Err("Failed to get default output device: " + IntToString(deviceId.error));
      }
      audioDeviceId := Some(deviceId.value);

      var currentVolume := GetDeviceVolume(MacOS, env.volumeStatus, env.volume);
      if currentVolume.Err? {
        return Err("Failed to get device volume: " + IntToString(currentVolume.error));
      }
      originalVolume := Some(currentVolume.value);

      if env.tempFile.Err? {
        return Err("Failed to create temp file: " + env.tempFile.error);
      }
      var outputPath := env.tempFile.value;

      if env.inputDevice.None? {
        return Err("No input device available");
      }
      var device := env.inputDevice.value;
      if device.name.Err? {
        return Err(device.name.error);
      }
      if device.defaultConfig.Err? {
        return Err(device.defaultConfig.error);
      }
      var config := device.defaultConfig.value;

      var spec := WavSpecFromConfig(config);
      if env.writerCreate.Err? {
        return Err(env.writerCreate.error);
      }
      var writer := new WavWriter(outputPath, spec, env.writeRefusals);
      var slot := new WriterSlot(writer, outputPath);

      var sender := new StopChannel();
      recordingSender := Some(sender);
      audioWriter := Some(slot);
      isRecording := true;
      tempFile := Some(outputPath);
      r := Ok(());
    }

    /** The file path still held by the session's writer slot, if any. */
    function PendingPath(): (p: Option<string>)
      reads this, if audioWriter.Some? then {audioWriter.value} else {}
      ensures p.Some? <==> audioWriter.Some? && audioWriter.value.entry.Some?
      ensures p.Some? ==> p.value == audioWriter.value.entry.value.1
    {
      if audioWriter.Some? && audioWriter.value.entry.Some? then Some(audioWriter.value.entry.value.1) else None
    }

    /** `stop_recording`. From `Recording` or `Paused` the state becomes `Stopped` and the flag
        is lowered; one stop signal is sent if a sender is stored, and a closed channel ends the
        call with its error. If the writer slot still holds its path, the stored user is
        required, the transcription is requested, the temporary file is released and the event
        for the result is emitted. */
    method StopRecording(token: string, refine: bool, answer: TranscribeAnswer) returns (r: Result<(), string>)
      modifies this, if recordingSender.Some? then {recordingSender.value} else {}
      ensures recordingState == Apply(old(recordingState), Stop)
      ensures old(Valid()) ==> Valid()
      ensures audioDeviceId == old(audioDeviceId) && originalVolume == old(originalVolume)
      ensures recordingSender == old(recordingSender) && audioWriter == old(audioWriter)
      ensures existingUser == old(existingUser)
      ensures old(recordingState) == Stopped ==>
        r == Err(NotStarted) && unchanged(this)
        && (old(recordingSender).Some? ==> unchanged(old(recordingSender).value))
      ensures old(recordingState) != Stopped ==> !isRecording
      ensures old(recordingState) != Stopped && recordingSender.Some? ==>
        var channel := recordingSender.value;
        channel.receiverAlive == old(channel.receiverAlive)
        && channel.signals == if old(channel.receiverAlive) then old(channel.signals) + 1 else old(channel.signals)
      ensures old(recordingState) != Stopped && recordingSender.Some? && !old(recordingSender.value.receiverAlive) ==>
        r == Err("sending on a closed channel") && tempFile == old(tempFile)
        && requests == old(requests) && emitted == old(emitted)
      ensures old(recordingState) != Stopped && (recordingSender.None? || old(recordingSender.value.receiverAlive)) ==>
        match old(PendingPath())
        case None =>
          r == Ok(()) && tempFile == old(tempFile) && requests == old(requests) && emitted == old(emitted)
        case Some(path) =>
          match existingUser
          case None =>
            r == Err("User not authenticated") && tempFile == old(tempFile)
            && requests == old(requests) && emitted == old(emitted)
          case Some(userId) =>
            r == Ok(()) && tempFile == None
            && requests == old(requests) + [TranscriptionRequest(userId, token, path, refine)]
            && emitted == old(emitted) + Emission(EventFor(refine, TranscriptionResult(answer, refine)))
    {
      if recordingState == Stopped {
        return Err(NotStarted);
      }
      recordingState := Stopped;
      isRecording := false;

      if recordingSender.Some? {
        var sent := recordingSender.value.Send();
        if sent.Err? {
          return Err(sent.error);
        }
      }

      var audioFilePath := PendingPath();
      r := Ok(());
      if audioFilePath.Some? {
        if existingUser.None? {
          return Err("User not authenticated");
        }
        requests := requests + [TranscriptionRequest(existingUser.value, token, audioFilePath.value, refine)];
        var transcriptionResult := TranscriptionResult(answer, refine);
        tempFile := None;
        emitted := emitted + Emission(EventFor(refine, transcriptionResult));
      }
    }

    /** The input-stream callback: a buffer is handed to `write_input_data` only while the
        recording flag is up and the buffer carries signal. */
    method OnInputBuffer(data: seq<real>, writer: WriterSlot) returns (delivered: bool, samplesWritten: nat)
      modifies if writer.entry.Some? then {writer.entry.value.0} else {}
      ensures delivered <==> isRecording && HasSignal(data)
      ensures !delivered ==> samplesWritten == 0 && (writer.entry.Some? ==> unchanged(writer.entry.value.0))
      ensures delivered && writer.entry.Some? ==>
        var w := writer.entry.value.0;
        && samplesWritten == AcceptedRun(w.refused, old(w.attempts), |data|)
        && w.samples == old(w.samples) + QuantizeAll(data[..samplesWritten])
        && w.attempts == old(w.attempts) + (if samplesWritten < |data| then samplesWritten + 1 else samplesWritten)
        && w.finalized == old(w.finalized)
      ensures writer.entry.None? ==> samplesWritten == 0
    {
      delivered := isRecording && HasSignal(data);
      samplesWritten := 0;
      if delivered {
        samplesWritten := WriteInputData(data, writer);
      }
    }
  }
}
