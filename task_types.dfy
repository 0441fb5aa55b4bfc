/** `components/tasks/types.ts`: the task as the API returns it, the task as the interface
    shows it, and `transformApiTask` between them. */
module TaskTypes {

  import opened Wrappers
  import opened Text
  import opened Json
  import opened TaskHandler

  /** The value of JavaScript's `Number(s)` for a string, as far as this model reads numerals:
      white space is trimmed, the empty string is 0, and an optionally signed run of decimal
      digits is that integer. Every other string is `OtherNumber`: `NaN`, or a numeral in a
      notation not modelled here (fraction, exponent, hexadecimal, `Infinity`). */
  datatype NumberValue = Integer(n: int) | OtherNumber

  function NumberOf(s: string): (v: NumberValue)
    ensures Trim(s) == [] ==> v == Integer(0)
    ensures Trim(s) != [] ==> (v.Integer? <==> ParseInteger(Trim(s)).Some?)
    ensures Trim(s) != [] && v.Integer? ==> ParseInteger(Trim(s)) == Some(v.n)
  {
    var t := Trim(s);
    if t == [] then Integer(0)
    else match ParseInteger(t)
      case Some(n) => Integer(n)
      case None => OtherNumber
  }

  /** An id written in decimal reads back as that number. */
  lemma NumberOfDecimal(n: nat)
    ensures NumberOf(NatToString(n)) == Integer(n)
  {
    NatToStringUnpadded(n);
    ParseIntegerOfIntToString(n);
  }

  /** `ApiTask`. */
  datatype ApiTask = ApiTask(id: string, task: string, done: bool, assignedDate: string,
                             createdAt: Option<string>, updatedAt: Option<string>)

  /** `Task`; the two optional members are set only by the interface, for tasks not yet saved. */
  datatype Task = Task(id: NumberValue, content: string, completed: bool, assignedDate: string,
                       tempId: Option<int>, isNewTask: Option<bool>)

  /** `transformApiTask`: the id as a number, the text and the done flag under their interface
      names, and the assigned date, or the current time `now` when the date is empty. The
      timestamps are dropped. */
  function TransformApiTask(apiTask: ApiTask, now: string): (t: Task)
    ensures t.id == NumberOf(apiTask.id)
    ensures t.content == apiTask.task && t.completed == apiTask.done
    ensures apiTask.assignedDate != [] ==> t.assignedDate == apiTask.assignedDate
    ensures apiTask.assignedDate == [] ==> t.assignedDate == now
    ensures t.tempId.None? && t.isNewTask.None?
  {
    Task(NumberOf(apiTask.id), apiTask.task, apiTask.done,
         if apiTask.assignedDate != [] then apiTask.assignedDate else now, None, None)
  }

  /** An `ApiTask` read from a JSON object: string `id`, `task` and `assignedDate`, boolean
      `done`, and optional string timestamps. */
  function DecodeApiTask(j: Json): (r: Option<ApiTask>)
    ensures r.Some? ==> StrField(j, "id") == Some(r.value.id) && StrField(j, "task") == Some(r.value.task)
    ensures r.Some? ==> Get(j, "done") == Some(JBool(r.value.done))
    ensures r.Some? ==> StrField(j, "assignedDate") == Some(r.value.assignedDate)
    ensures r.Some? ==> r.value.createdAt == StrField(j, "createdAt") && r.value.updatedAt == StrField(j, "updatedAt")
    ensures r.Some? <==>
      (&& StrField(j, "id").Some? && StrField(j, "task").Some? && StrField(j, "assignedDate").Some?
       && Get(j, "done").Some? && Get(j, "done").value.JBool?)
  {
    match (StrField(j, "id"), StrField(j, "task"), Get(j, "done"), StrField(j, "assignedDate"))
    case (Some(id), Some(task), Some(JBool(done)), Some(date)) =>
      Some(ApiTask(id, task, done, date, StrField(j, "createdAt"), StrField(j, "updatedAt")))
    case _ => None
  }

  /** A task created through `create_task` and stored under a numeric id comes back to the
      interface with that id, its text, not done, and its date (or `now` when the date was
      empty). */
  lemma CreatedTaskRoundTrip(content: string, userId: string, assignedDate: string, id: nat, now: string)
    ensures
      var stored := JObject(CreatePayload(content, userId, assignedDate).fields["id" := JString(NatToString(id))]);
      var apiTask := DecodeApiTask(stored);
      && apiTask == Some(ApiTask(NatToString(id), content, false, assignedDate, None, None))
      && TransformApiTask(apiTask.value, now)
         == Task(Integer(id), content, false, if assignedDate != [] then assignedDate else now, None, None)
  {
    var stored := JObject(CreatePayload(content, userId, assignedDate).fields["id" := JString(NatToString(id))]);
    assert StrField(stored, "createdAt") == None;
    assert StrField(stored, "updatedAt") == None;
    NumberOfDecimal(id);
  }
}
