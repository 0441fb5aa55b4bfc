# jeff-ai recorder core, modelled in Dafny

jeff-ai is a Tauri desktop recorder. Its Rust back end records the microphone to a temporary
WAV file and sends the file to a transcription server. It can also build a CoreAudio aggregate
device (a microphone or output device plus a global process tap), move the default output
device, and fade the output volume. Its TypeScript front end holds the recording-mode and
delete-task state machines, the mapping from API tasks to interface tasks, the editor's
"Copy plain text" cleanup and the dropdown placement rule.

This project models that core and proves properties of it:

- `Recorder`: the WAV format, the sample quantiser, and writing a buffer into the shared WAV writer.
- `AudioHandler`: the recording lifecycle over the shared application state, the silence gate,
  how a server reply becomes a transcript or an error, and which event is emitted.
- `AggregateDescription`, `MacAggregateDevice`, `AggregateDevice`: the seven-key description
  dictionary of both variants, with a strict reader proved to invert the builder, and the tap,
  create and destroy calls with their status mapping.
- `DeviceHelpers`: the device search by name and setting the default output device.
- `Volume`: the property reads and writes, the linear fade, and the stubs for other platforms.
- `TaskHandler`, `TaskTypes`: the task requests and payloads, the user guard, and `transformApiTask`.
- `ModeMachine`, `DeleteTaskMachine`, `DocumentEditor`, `DropdownPosition`: the front-end logic.
- `Wrappers`, `Text`, `Json`, `CoreAudio`: shared vocabulary. `Text` covers decimal rendering
  of integers, JavaScript white space and `trim`. `Json` is the shape of a `serde_json::Value`.
  `CoreAudio` holds the property-list values, the description keys and the HAL call log.

Calls into the OS, the audio and file libraries and the network are oracles. The model takes
their answer as a parameter: a status, an id, a reply, or the set of writes a file refuses.
Effectful HAL calls are appended to `Hal.log`, so each operation states exactly which calls it
issues and in what order. A Rust `expect` that fails is the value `Panicked(message)`. Samples,
volumes and lengths are exact reals.

### Behaviour of the code worth knowing

- Neither `create_aggregate_device` looks for a lingering device of the same name before
  creating one, and a failing tap panics through `expect` instead of returning an error.
- `start_recording` holds the recording-state lock across the whole setup, not only for the
  transition. It sets `Recording` before the setup steps, so a failing step leaves the state at
  `Recording` with only the earlier slots filled. The next `stop_recording` then reports success
  or, when a sender from an earlier session is still stored, "sending on a closed channel".
- `start_recording` records from the default input device. It does not create an aggregate
  device, switch the default output, or fade the volume: the fade call is commented out.
- Nothing ever assigns `Paused`, although both handlers accept it.
- The silence threshold is 0.00001, and the peak must be strictly above it.
- `stop_recording` does not wait for the recording thread to finalize the file. Whether a file
  is transcribed depends on whether the thread has already taken the writer out of its slot.
- The `AppState` declaration in `src-tauri/src/state/app_state.rs` has no `audio_device_id` or
  `original_volume` field, but the handler uses both. The model has them as `Option` slots.

## Model

| member | source | states |
|---|---|---|
| Recorder.WavSpecFromConfig | src-tauri/src/audio/recorder.rs:8-15 | the WAV format has the capture's channel count and sample rate, with 16-bit integer samples |
| Recorder.Clamp | src-tauri/src/audio/recorder.rs:43-45 | the result lies in the bounds, equals the input inside them and the nearer bound outside them |
| Recorder.TruncateTowardZero | src-tauri/src/audio/recorder.rs:46 | the `as i16` cast of an in-range value rounds toward zero and is within one unit of the value |
| Recorder.Quantize | src-tauri/src/audio/recorder.rs:40-46 | every converted sample lies in the `i16` range |
| Recorder.QuantizeAll | src-tauri/src/audio/recorder.rs:38-46 | one converted sample per input sample, in input order |
| Recorder.QuantizeSaturatesHigh | src-tauri/src/audio/recorder.rs:40-46 | every sample of at least 0.1 becomes 32767 |
| Recorder.QuantizeSaturatesLow | src-tauri/src/audio/recorder.rs:40-46 | every sample of at most -32768/327670 becomes -32768 |
| Recorder.QuantizeFullScale | src-tauri/src/audio/recorder.rs:40-46 | 1.0 becomes 32767 and -1.0 becomes -32768 |
| Recorder.QuantizeZero | src-tauri/src/audio/recorder.rs:40-46 | 0.0 becomes 0 |
| Recorder.QuantizeAccurate | src-tauri/src/audio/recorder.rs:40-46 | below saturation the result is the scaled sample rounded toward zero, within one unit |
| Recorder.TruncateMonotone | src-tauri/src/audio/recorder.rs:46 | the cast never reverses the order of two values |
| Recorder.QuantizeMonotone | src-tauri/src/audio/recorder.rs:40-46 | the conversion never reverses the order of two samples |
| Recorder.WavWriter.WriteSample | src-tauri/src/audio/recorder.rs:48-54 | a write succeeds unless the file refuses that call; on success the sample is appended |
| Recorder.WavWriter.Finalize | src-tauri/src/handlers/audio_handler.rs:223 | finalizing keeps the samples and marks the file finished |
| Recorder.WriterSlot.Take | src-tauri/src/handlers/audio_handler.rs:222 | the slot's writer and path are handed out and the slot is left empty |
| Recorder.AcceptedRun | src-tauri/src/audio/recorder.rs:48-53 | the number of writes that succeed before the first refused call |
| Recorder.WriteInputData | src-tauri/src/audio/recorder.rs:17-65 | with no writer nothing is written; otherwise the quantised samples are appended in order up to the first failed write, which ends the call, so later samples are not attempted |
| AudioHandler.Transition | src-tauri/src/handlers/audio_handler.rs:121-247 | start succeeds iff the state is `Stopped`, stop iff it is not; each refusal has its message |
| AudioHandler.RunNeverPauses | src-tauri/src/handlers/audio_handler.rs:121-247 | no sequence of starts and stops reaches `Paused` from another state |
| AudioHandler.StartStopCycle | src-tauri/src/handlers/audio_handler.rs:121-247 | start then stop returns to `Stopped`, and a second start in between is refused |
| AudioHandler.PeakAmplitude | src-tauri/src/handlers/audio_handler.rs:198 | the peak bounds every sample's magnitude and is 0 or one of them |
| AudioHandler.HasSignalIff | src-tauri/src/handlers/audio_handler.rs:196-203 | a buffer passes the gate iff some sample's magnitude is strictly above 0.00001 |
| AudioHandler.InterpretReply | src-tauri/src/handlers/audio_handler.rs:83-108 | an `error` member wins (its text or "Unknown error"); then "No dialog detected" gives an empty transcript; then the transcript field must be a string, else its own message |
| AudioHandler.InterpretEncodedReply | src-tauri/src/handlers/audio_handler.rs:83-108 | interpreting the reply the server sends for an error, for no dialog or for a transcript recovers what it meant |
| AudioHandler.InterpretWrongField | src-tauri/src/handlers/audio_handler.rs:98-108 | a transcript under the other mode's field is reported missing |
| AudioHandler.ErrorTakesPrecedence | src-tauri/src/handlers/audio_handler.rs:83-95 | an `error` member outranks a no-dialog message and a transcript in the same reply |
| AudioHandler.TranscriptionResult | src-tauri/src/handlers/audio_handler.rs:19-113 | a failed request gives its message; a parsed reply gives its interpretation |
| AudioHandler.EventFor | src-tauri/src/handlers/audio_handler.rs:314-338 | no event iff the transcript is empty; otherwise the mode's completion event with the transcript, or `transcription-error` with the message |
| AudioHandler.EventForServerReply | src-tauri/src/handlers/audio_handler.rs:314-338 | end to end, a transcript is announced under the mode's event, "no dialog" not at all and a server error as an error event |
| AudioHandler.StopChannel.Send | src-tauri/src/handlers/audio_handler.rs:269 | sending queues one stop signal while the receiver lives and fails with the channel's message afterwards |
| AudioHandler.StopChannel.CloseReceiver | src-tauri/src/handlers/audio_handler.rs:215-226 | the recording thread's end drops the receiver |
| AudioHandler.FinishWorker | src-tauri/src/handlers/audio_handler.rs:215-225 | the thread takes the writer out of the slot, finalizes it with its samples and write count intact, and drops its receiver without touching the queued signals |
| AudioHandler.StartFailure | src-tauri/src/handlers/audio_handler.rs:128-173 | the first failing setup step and its message; none only when every step succeeds |
| AudioHandler.AppState.constructor | src-tauri/src/state/app_state.rs:18-27 | a fresh state is `Stopped` with the flag down and every recording slot empty (the declaration fixes no initial values; these are assumed) |
| AudioHandler.AppState.StartRecording | src-tauri/src/handlers/audio_handler.rs:117-232 | outside `Stopped`, refused with nothing changed; from `Stopped`, `Recording` first, then each failing step returns its message with only earlier slots filled; on success every slot holds the new session, with an empty writer in the input's WAV format that has made no write calls yet and refuses exactly the calls the file refuses (`env.writeRefusals`); keeps the flag-implies-`Recording` invariant |
| AudioHandler.AppState.PendingPath | src-tauri/src/handlers/audio_handler.rs:272-280 | the path still held in the session's writer slot, if any |
| AudioHandler.AppState.StopRecording | src-tauri/src/handlers/audio_handler.rs:234-342 | from `Stopped`, refused with nothing changed; otherwise `Stopped`, flag down, one signal sent (a closed channel ends the call); with a pending file, a stored user is required, one request is sent, the temporary file is released and the result's event is emitted |
| AudioHandler.AppState.OnInputBuffer | src-tauri/src/handlers/audio_handler.rs:196-203 | a buffer reaches the writer iff the flag is up and it carries signal, and then as `write_input_data` writes it: the accepted prefix appended, the write count advanced past the refused call, the writer not finalized |
| AggregateDescription.DescriptionKeysCount | src-tauri/src/audio/macos/aggregate_device.rs:87-116 | the seven top-level keys are distinct |
| AggregateDescription.ParseSubDeviceList | src-tauri/src/audio/macos/aggregate_device.rs:59-70 | reading back a sub-device list gives the UIDs in order |
| AggregateDescription.SubDeviceListOfParse | src-tauri/src/audio/macos/aggregate_device.rs:59-70 | every list the reader accepts is the one built from the UIDs it read |
| AggregateDescription.ParseOfBuild | src-tauri/src/audio/macos/aggregate_device.rs:87-116 | reading a built description gives back name, UID, main sub-device, sub-device list and tap UUID |
| AggregateDescription.BuildOfParse | src-tauri/src/audio/macos/aggregate_device.rs:73-116 | rebuilding from what the reader recovered reproduces the dictionary exactly |
| AggregateDescription.BuildInjective | src-tauri/src/audio/macos/aggregate_device.rs:87-116 | two descriptions are equal iff built from equal fields |
| AggregateDescription.DestroyResult | src-tauri/src/audio/macos/aggregate_device.rs:144-154 | `Ok` iff the destroy status is 0, else "Failed to destroy aggregate device: N" |
| AggregateDescription.DestroyErrorIdentifiesStatus | src-tauri/src/audio/macos/aggregate_device.rs:150 | distinct statuses give distinct destroy messages |
| AggregateDescription.CreateResult | src-tauri/src/audio/macos/aggregate_device.rs:126-141 | status 0 gives both ids, any other status an error carrying it |
| MacAggregateDevice.Description | src-tauri/src/audio/macos/aggregate_device.rs:59-116 | the description reads back as the caller's name and UID, main sub-device `output_uid`, sub-devices `[input_uid, output_uid]` and the tap's UUID |
| MacAggregateDevice.DescriptionWellFormed | src-tauri/src/audio/macos/aggregate_device.rs:87-116 | seven keys; the main key holds `output_uid`, which is the second sub-device |
| MacAggregateDevice.CreateAggregateDevice | src-tauri/src/audio/macos/aggregate_device.rs:36-141 | a tap is created first (its empty exclusion list is assumed); a failing tap panics with no aggregate call issued; otherwise exactly one creation call with the description, whose status decides the result |
| MacAggregateDevice.RemoveAggregateDevice | src-tauri/src/audio/macos/aggregate_device.rs:144-154 | one destroy call, `Ok` iff its status is 0 |
| AggregateDevice.Description | src-tauri/src/audio/aggregate_device.rs:55-110 | the description reads back as the caller's name and UID, main sub-device `output_uid`, sub-devices `[output_uid]` and the tap's UUID |
| AggregateDevice.DescriptionIgnoresInput | src-tauri/src/audio/aggregate_device.rs:38-110 | `input_uid` has no influence on the description |
| AggregateDevice.DescriptionWellFormed | src-tauri/src/audio/aggregate_device.rs:76-110 | seven keys, and the only sub-device is the main one |
| AggregateDevice.CreateAggregateDevice | src-tauri/src/audio/aggregate_device.rs:38-138 | the tap first; a failing tap panics before any aggregate call; otherwise one creation call, status 0 gives both ids |
| AggregateDevice.RemoveAggregateDevice | src-tauri/src/audio/aggregate_device.rs:141-148 | one destroy call, `Ok` iff its status is 0 |
| DeviceHelpers.FindDevice | src-tauri/src/audio/macos/helpers.rs:139-141 | the id of the first device whose name lookup gives the name; none iff no lookup does |
| DeviceHelpers.CheckDeviceExists | src-tauri/src/audio/macos/helpers.rs:71-81 | a failed enumeration panics; otherwise true iff some device's name lookup succeeds with the target, skipping failed lookups |
| DeviceHelpers.SetDefaultDevice | src-tauri/src/audio/macos/helpers.rs:137-162 | a failed enumeration is an error with no write; no match gives "Device '<name>' not found" with no write; otherwise one write for the first match, and a nonzero status gives the error with its code |
| DeviceHelpers.GetTapStreamAudioDescription | src-tauri/src/audio/macos/helpers.rs:97-135 | the format iff the status is 0, else the status as an error |
| Volume.GetDefaultOutputDevice | src-tauri/src/audio/volume.rs:8-36 | on macOS the device iff the status is 0, else the status; elsewhere device 0 (lines 104-107) |
| Volume.GetDeviceVolume | src-tauri/src/audio/volume.rs:39-65 | on macOS the volume iff the status is 0, else the status; elsewhere 1.0 (lines 109-112) |
| Volume.SetDeviceVolume | src-tauri/src/audio/volume.rs:68-91 | on macOS one write whose status decides the result; elsewhere no write and `Ok` (lines 114-117) |
| Volume.Ramp | src-tauri/src/audio/volume.rs:95-97 | exactly `steps` values |
| Volume.FadeVolume | src-tauri/src/audio/volume.rs:94-101 | exactly `steps` volume writes to the device, the ramp's values in order, whatever each write's status |
| Volume.RampValueIsInterpolation | src-tauri/src/audio/volume.rs:95-97 | the i-th value is the linear interpolation from `from` to `to` at i/steps |
| Volume.RampEndsAtTarget | src-tauri/src/audio/volume.rs:95-97 | the last value is `to` |
| Volume.RampBetween | src-tauri/src/audio/volume.rs:95-97 | every value lies between `from` and `to`, and equals `from` only when `from == to` |
| Volume.RampMonotone | src-tauri/src/audio/volume.rs:95-97 | the values move monotonically from `from` toward `to` |
| TaskHandler.CreatePayload | src-tauri/src/handlers/task_handler.rs:77-82 | exactly the members task, done (false), userId and assignedDate, holding the given values |
| TaskHandler.CreatePayloadInjective | src-tauri/src/handlers/task_handler.rs:77-82 | the create body determines the content, user and date it was built from |
| TaskHandler.UpdatePayload | src-tauri/src/handlers/task_handler.rs:124-134 | "task", "done" and "day" each present iff supplied, with the given value, and nothing else; all absent gives the empty object |
| TaskHandler.PlainResult | src-tauri/src/handlers/task_handler.rs:147-157 | a transport failure or unparsable body gives its message, otherwise the parsed body |
| TaskHandler.FetchTasks | src-tauri/src/handlers/task_handler.rs:19-56 | without a stored user, "User not authenticated" and no request; otherwise one authenticated GET of the task list |
| TaskHandler.CreateTask | src-tauri/src/handlers/task_handler.rs:58-111 | without a stored user, no request; otherwise one POST of the create body; `Ok` iff the status is a success and the body parses; each failure has its own message, a non-success one "Server error: <body>" |
| TaskHandler.UpdateTask | src-tauri/src/handlers/task_handler.rs:113-158 | no user check; one JSON PATCH to the task's URL whose body holds exactly the supplied fields, each with its value |
| TaskHandler.DeleteTask | src-tauri/src/handlers/task_handler.rs:160-188 | no user check; one DELETE of the task's URL |
| TaskHandler.GuardOnlyOnFetchAndCreate | src-tauri/src/handlers/task_handler.rs:27-33 | without a user, fetching and creating send nothing whatever the network would answer, while deleting always sends |
| TaskTypes.NumberOf | src/components/tasks/types.ts:31 | blank text is 0, and a trimmed, optionally signed decimal numeral is its integer |
| TaskTypes.NumberOfDecimal | src/components/tasks/types.ts:31 | an id written in decimal reads back as that number |
| TaskTypes.TransformApiTask | src/components/tasks/types.ts:29-36 | numeric id, content from `task`, completed from `done`, the date or `now` when the date is empty, and nothing else |
| TaskTypes.DecodeApiTask | src/components/tasks/types.ts:20-27 | accepted iff `id`, `task` and `assignedDate` are strings and `done` is a boolean; the task then holds those values and the optional string timestamps |
| TaskTypes.CreatedTaskRoundTrip | src/components/tasks/types.ts:29-36 | a task created with the create body and stored under a numeric id comes back with that id, its text, not done, and its date or `now` |
| ModeMachine.ModeStep | src/machines/mode-machine.ts:7-24 | a toggle enters its mode unless that mode is active, in which case it returns to idle |
| ModeMachine.ToggleTwice | src/machines/mode-machine.ts:7-24 | from idle or from its own mode, the same toggle twice returns to the start |
| ModeMachine.ToggleSwitchesMode | src/machines/mode-machine.ts:16-22 | from the other mode a toggle switches straight over, and toggling again goes to idle |
| DeleteTaskMachine.DeleteStep | src/machines/delete-task-machine.ts:24-52 | only `START_DELETE` leaves idle and only it writes `taskId`; pause and resume switch between deleting and paused; cancel and confirm return to idle; the timeout acts only while deleting; in every state the other events change nothing |
| DeleteTaskMachine.RunKnowsTask | src/machines/delete-task-machine.ts:24-52 | the invariant "not idle implies a task id" is kept by every run |
| DeleteTaskMachine.RunFromInitialKnowsTask | src/machines/delete-task-machine.ts:20-52 | from the initial configuration the machine knows its task whenever it is not idle |
| DeleteTaskMachine.TaskIdProvenance | src/machines/delete-task-machine.ts:29-31 | the id after a run is the initial one or that of one of the run's `START_DELETE` events; returning to idle does not clear it |
| DeleteTaskMachine.PauseHoldsTimeout | src/machines/delete-task-machine.ts:35-51 | a paused deletion ignores the timeout until it is resumed |
| DropdownPosition.UpdatePosition | src/hooks/use-dropdown-position.ts:23-38 | with no element, nothing changes; otherwise bottom iff the space below is at least the space above, and the height plus the margin is the chosen side's space |
| DropdownPosition.UpdateTakesLargerSpace | src/hooks/use-dropdown-position.ts:26-36 | the height is the larger of the two spaces less the margin |
| DropdownPosition.UpdateIgnoresCurrent | src/hooks/use-dropdown-position.ts:23-38 | a measurement decides the position alone, so measuring again is a no-op |
| DropdownPosition.MaxHeightCanBeNegative | src/hooks/use-dropdown-position.ts:32-35 | the height is not clamped: a margin larger than the room gives a negative height |
| Text.Trim | src/components/document-editor/index.tsx:237 | the result is a slice of the input with only white space outside it, and it neither starts nor ends with white space |
| Text.TrimIdempotent | src/components/document-editor/index.tsx:237 | trimming twice is trimming once |
| DocumentEditor.Collapse | src/components/document-editor/index.tsx:237 | never longer than the input, empty iff the input is, and starts with a line feed iff the input does |
| DocumentEditor.CollapseLeadingRun | src/components/document-editor/index.tsx:237 | a run of three or more line feeds becomes exactly two, and a run of one or two is kept |
| DocumentEditor.CollapseSplit | src/components/document-editor/index.tsx:237 | runs are replaced independently: the collapse works separately on each side of any other character |
| DocumentEditor.CollapseNoTriple | src/components/document-editor/index.tsx:237 | the result has no three consecutive line feeds |
| DocumentEditor.CollapseFixpoint | src/components/document-editor/index.tsx:237 | text without three consecutive line feeds is unchanged |
| DocumentEditor.CollapseKeepsText | src/components/document-editor/index.tsx:237 | every character other than a line feed survives, in order |
| DocumentEditor.CleanPlainText | src/components/document-editor/index.tsx:236-237 | the clipboard text has no three consecutive line feeds and no white space at either end |
| DocumentEditor.CleanIdempotent | src/components/document-editor/index.tsx:237 | cleaning twice is cleaning once |
| DocumentEditor.CleanKeepsText | src/components/document-editor/index.tsx:237 | the clean text is the collapsed text less edge white space, and collapsing keeps every other character |
| DocumentEditor.ContentCommand | src/components/document-editor/index.tsx:90-98 | nothing for empty content or before the editor exists; `setContent` for an empty editor, `insertContent` otherwise, with the content unchanged |
| DocumentEditor.ShouldShow | src/components/document-editor/index.tsx:200-207 | shown iff the editor is editable, focused and non-empty and the selection is collapsed at offset 0 |

## Left out

- The HTTP exchanges are not modelled: the transcription upload, the task API and the other
  handlers. Each exchange's answer is a parameter of the model.
- Threads, the `mpsc` channel, the atomic flag and the mutexes are not modelled as concurrency.
  Start and stop are atomic steps and the recording thread's end is `FinishWorker`. A poisoned
  lock (the `map_err(|e| e.to_string())` on each `lock()`) is not modelled.
- Recorder.WavWriter.Finalize: never fails. In the source `writer.finalize().unwrap()`
  (`src-tauri/src/handlers/audio_handler.rs:223`) panics inside the recording thread while it
  holds the writer's lock, which would poison that lock; this is not modelled.
- AudioHandler.StartFailure / AudioHandler.AppState.StartRecording: the handler takes
  `get_default_output_device` and `get_device_volume` from `crate::audio::macos::volume`, which
  is not part of this model. They are assumed to behave like the macOS branch of
  `src-tauri/src/audio/volume.rs` (a non-zero `OSStatus` as the error, written in decimal).
- cpal stream building and playback (`unwrap` inside the thread), the logging of supported
  configurations, and the temporary file's deletion on drop are not modelled. Nor is the
  check that the file is gone after `stop_recording`.
- `f32` arithmetic (rounding, NaN, infinities) is not modelled. Samples, volumes and lengths
  are exact reals, so results are stated in exact arithmetic. This includes the
  division by zero in `fade_volume` when `steps` is 0, whose loop then runs zero times.
- `thread::sleep` delays are not modelled: 300 ms in `start_recording`, the per-step delay
  in `fade_volume`.
- Emit failures (`emit_to(...).map_err(...)?`) are not modelled. Emitting is appending an event.
- The Objective-C/CoreAudio FFI (`CATapDescription`, raw property get and set) is not
  modelled. Each call is an oracle status, and the tap's UUID is an input.
- DeviceHelpers.CheckDeviceExists: the panic message omits the `Debug` text of the underlying
  error, which the model does not have.
- TaskTypes.NumberOf: only blank strings and optionally signed decimal integers are read.
  Fractions, exponents, hexadecimal and `Infinity` fall in `OtherNumber` together with `NaN`.
  The integer is exact, while JavaScript's `Number` gives the nearest double: the two agree only
  up to 2^53 in magnitude, and a numeral beyond about 1.8e308 gives `Infinity` in JavaScript.
- TaskTypes.DecodeApiTask: `ApiTask` in `src/components/tasks/types.ts` is a type annotation
  that nothing checks at run time, so the source has no rejection path. The model's `None` for
  an object without those members stands for data the interface would mistype.
- MacAggregateDevice.CreateAggregateDevice: `src-tauri/src/audio/macos/ca_tap_description.rs` is
  not part of this model. That `new_stereo_global_tap_but_exclude()` excludes no process is an
  assumption.
- AggregateDescription.TapPanicMessage: `src-tauri/src/audio/macos/tap.rs` is not part of this
  model. The error type whose `expect` message is modelled is assumed.
- AudioHandler.AppState.constructor: no construction of `AppState` is part of this model. The
  initial values (`Stopped`, flag down, empty slots) are an assumption.
- TaskHandler.UpdateTask: the task id is a `nat`; the `u32` bound is not modelled.
- DeleteTaskMachine.DeleteStep: the 2000 ms `after` timer is the explicit event `Timeout`. The
  xstate assignment is modelled as the evidently intended "take the id from the event".
- DocumentEditor.ContentCommand: tiptap's own document semantics behind `setContent` and
  `insertContent` are not modelled.
- Menus, pages, toggles, the updater and notification helpers, and the settings, user,
  message and weather handlers are not modelled.
