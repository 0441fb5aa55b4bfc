/** `machines/mode-machine.ts`: which capture mode the editor is in. Each toggle enters its
    mode, or leaves it for `idle` when that mode is already active. */
module ModeMachine {

  datatype Mode = Idle | Recorder | SystemOutput

  datatype ModeEvent = ToggleRecorder | ToggleSystemOutput

  const InitialMode: Mode := Idle

  /** The mode an event toggles. */
  function Target(e: ModeEvent): Mode {
    match e
    case ToggleRecorder => Recorder
    case ToggleSystemOutput => SystemOutput
  }

  /** The transition table, state by state; every state handles both events. */
  function ModeStep(s: Mode, e: ModeEvent): (r: Mode)
    ensures r == Target(e) <==> s != Target(e)
    ensures r != Target(e) ==> r == Idle
  {
    match s
    case Idle =>
      (match e
       case ToggleRecorder => Recorder
       case ToggleSystemOutput => SystemOutput)
    case Recorder =>
      (match e
       case ToggleRecorder => Idle
       case ToggleSystemOutput => SystemOutput)
    case SystemOutput =>
      (match e
       case ToggleSystemOutput => Idle
       case ToggleRecorder => Recorder)
  }

  /** A toggle is undone by repeating it, from `idle` or from the mode it toggles. */
  lemma ToggleTwice(s: Mode, e: ModeEvent)
    requires s == Idle || s == Target(e)
    ensures ModeStep(ModeStep(s, e), e) == s
  {
  }

  /** From another active mode, a toggle switches straight to its own mode, and toggling
      back then goes to `idle`, not to the mode left. */
  lemma ToggleSwitchesMode(e: ModeEvent)
    ensures var other := if e == ToggleRecorder then SystemOutput else Recorder;
      ModeStep(other, e) == Target(e) && ModeStep(ModeStep(other, e), e) == Idle
  {
  }
}
