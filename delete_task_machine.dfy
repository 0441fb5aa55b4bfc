/** `machines/delete-task-machine.ts`: deleting a task with a grace period that can be paused,
    resumed, cancelled or confirmed. The 2000 ms `after` transition is the event `Timeout`. */
module DeleteTaskMachine {

  import opened Wrappers

  datatype DeleteState = Idle | Deleting | Paused

  datatype DeleteEvent =
    | StartDelete(taskId: string)
    | Pause
    | Resume
    | Cancel
    | ConfirmDelete
    /** The `after: { 2000: ... }` transition, once the grace period has run out. */
    | Timeout

  /** The machine's state and its `taskId` context (`null` is `None`). */
  datatype DeleteConfig = DeleteConfig(state: DeleteState, taskId: Option<string>)

  const InitialConfig: DeleteConfig := DeleteConfig(Idle, None)

  /** The transition table. Unlisted events leave state and context unchanged. */
  function DeleteStep(c: DeleteConfig, e: DeleteEvent): (r: DeleteConfig)
    ensures r.taskId != c.taskId ==> c.state == Idle && e.StartDelete? && r.taskId == Some(e.taskId)
    ensures c.state == Idle ==> (r.state == Deleting <==> e.StartDelete?)
    ensures c.state == Idle && !e.StartDelete? ==> r == c
    ensures c.state != Idle ==> r.taskId == c.taskId
    ensures c.state != Idle && (e == Cancel || e == ConfirmDelete) ==> r.state == Idle
    ensures e == Timeout ==> r.state == if c.state == Deleting then Idle else c.state
    ensures c.state == Deleting && e == Pause ==> r == c.(state := Paused)
    ensures c.state == Paused && e == Resume ==> r == c.(state := Deleting)
    ensures c.state == Deleting && (e.StartDelete? || e == Resume) ==> r == c
    ensures c.state == Paused && (e.StartDelete? || e == Pause || e == Timeout) ==> r == c
  {
    match c.state
    case Idle =>
      (match e
       case StartDelete(id) => DeleteConfig(Deleting, Some(id))
       case _ => c)
    case Deleting =>
      (match e
       case Pause => c.(state := Paused)
       case Cancel => c.(state := Idle)
       case ConfirmDelete => c.(state := Idle)
       case Timeout => c.(state := Idle)
       case _ => c)
    case Paused =>
      (match e
       case Resume => c.(state := Deleting)
       case Cancel => c.(state := Idle)
       case ConfirmDelete => c.(state := Idle)
       case _ => c)
  }

  function RunEvents(c: DeleteConfig, events: seq<DeleteEvent>): DeleteConfig
    decreases |events|
  {
    if events == [] then c else RunEvents(DeleteStep(c, events[0]), events[1..])
  }

  /** Outside `idle` the machine always knows which task it is deleting. */
  predicate KnowsTask(c: DeleteConfig) {
    c.state != Idle ==> c.taskId.Some?
  }

  lemma {:induction false} RunKnowsTask(c: DeleteConfig, events: seq<DeleteEvent>)
    requires KnowsTask(c)
    ensures KnowsTask(RunEvents(c, events))
    decreases |events|
  {
    if events != [] {
      RunKnowsTask(DeleteStep(c, events[0]), events[1..]);
    }
  }

  /** Every run from the initial configuration knows its task whenever it is not idle. */
  lemma RunFromInitialKnowsTask(events: seq<DeleteEvent>)
    ensures KnowsTask(RunEvents(InitialConfig, events))
  {
    RunKnowsTask(InitialConfig, events);
  }

  /** The `taskId` after any run is the one it started with or the id of one of the run's
      `StartDelete` events: returning to `idle` does not clear it. */
  lemma {:induction false} TaskIdProvenance(c: DeleteConfig, events: seq<DeleteEvent>)
    ensures var id := RunEvents(c, events).taskId;
      id == c.taskId || (id.Some? && exists i :: 0 <= i < |events| && events[i] == StartDelete(id.value))
    decreases |events|
  {
    if events != [] {
      var next := DeleteStep(c, events[0]);
      TaskIdProvenance(next, events[1..]);
      var id := RunEvents(c, events).taskId;
      assert RunEvents(c, events) == RunEvents(next, events[1..]);
      if id != next.taskId {
        var i :| 0 <= i < |events[1..]| && events[1..][i] == StartDelete(id.value);
        assert events[i + 1] == StartDelete(id.value);
      } else if next.taskId != c.taskId {
        assert events[0] == StartDelete(id.value);
      }
    }
  }

  /** Pausing stops the grace period: a paused deletion ignores the timeout until resumed,
      and then the timeout returns it to `idle`. */
  lemma PauseHoldsTimeout(id: string)
    ensures var paused := RunEvents(InitialConfig, [StartDelete(id), Pause, Timeout]);
      paused == DeleteConfig(Paused, Some(id))
      && RunEvents(paused, [Resume, Timeout]) == DeleteConfig(Idle, Some(id))
  {
    assert RunEvents(InitialConfig, [StartDelete(id), Pause, Timeout]) == DeleteConfig(Paused, Some(id)) by {
      assert [StartDelete(id), Pause, Timeout][1..] == [Pause, Timeout];
      assert [Pause, Timeout][1..] == [Timeout];
    }
    assert [Resume, Timeout][1..] == [Timeout];
  }
}
