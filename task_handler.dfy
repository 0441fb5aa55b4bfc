/** `handlers/task_handler.rs`: the four task commands against the task API. The network is an
    oracle: each command is given the answer its request receives, and the model states which
    request is sent (method, URL, authorization, JSON body) and how the answer becomes the
    command's result. */
module TaskHandler {

  import opened Wrappers
  import opened Text
  import opened Json

  const TasksUrl: string := "https://jeff-ai-cf-be.mrboutte21.workers.dev/api/tasks"
  const NotAuthenticated: string := "User not authenticated"
  const JsonContentType: string := "application/json"

  datatype HttpMethod = GetMethod | PostMethod | PatchMethod | DeleteMethod

  datatype HttpRequest = HttpRequest(
    verb: HttpMethod, url: string, authorization: string, contentType: string, body: Option<Json>)

  /** What the exchange yields: a transport failure, or a response with its success flag, the
      body read as text and the body parsed as JSON (each read may fail with a message). */
  datatype HttpAnswer =
    | TransportError(message: string)
    | Response(success: bool, text: Result<string, string>, json: Result<Json, string>)

  /** The request a command sends, if any, and its result. */
  datatype Exchange = Exchange(request: Option<HttpRequest>, result: Result<Json, string>)

  function Bearer(token: string): string {
    "Bearer " + token
  }

  /** The body of `create_task`: exactly these four members. */
  function CreatePayload(content: string, userId: string, assignedDate: string): (p: Json)
    ensures p.JObject? && p.fields.Keys == {"task", "done", "userId", "assignedDate"}
    ensures StrField(p, "task") == Some(content)
    ensures StrField(p, "userId") == Some(userId)
    ensures StrField(p, "assignedDate") == Some(assignedDate)
    ensures Get(p, "done") == Some(JBool(false))
  {
    JObject(map["task" := JString(content), "done" := JBool(false), "userId" := JString(userId),
                "assignedDate" := JString(assignedDate)])
  }

  /** The create body determines the content, user and date it was built from. */
  lemma CreatePayloadInjective(c1: string, u1: string, d1: string, c2: string, u2: string, d2: string)
    ensures CreatePayload(c1, u1, d1) == CreatePayload(c2, u2, d2) <==> c1 == c2 && u1 == u2 && d1 == d2
  {
    if CreatePayload(c1, u1, d1) == CreatePayload(c2, u2, d2) {
      assert StrField(CreatePayload(c1, u1, d1), "task") == Some(c1);
      assert StrField(CreatePayload(c1, u1, d1), "userId") == Some(u1);
      assert StrField(CreatePayload(c1, u1, d1), "assignedDate") == Some(d1);
    }
  }

  /** The body of `update_task`, built by inserting into an empty object one member per
      supplied field: `task`, `done` and `day`, each with the given value. */
  method UpdatePayload(content: Option<string>, completed: Option<bool>, day: Option<string>)
    returns (p: map<string, Json>)
    ensures p.Keys <= {"task", "done", "day"}
    ensures "task" in p <==> content.Some?
    ensures "done" in p <==> completed.Some?
    ensures "day" in p <==> day.Some?
    ensures content.Some? ==> p["task"] == JString(content.value)
    ensures completed.Some? ==> p["done"] == JBool(completed.value)
    ensures day.Some? ==> p["day"] == JString(day.value)
    ensures content.None? && completed.None? && day.None? ==> p == map[]
  {
    p := map[];
    if content.Some? {
      p := p["task" := JString(content.value)];
    }
    if completed.Some? {
      p := p["done" := JBool(completed.value)];
    }
    if day.Some? {
      p := p["day" := JString(day.value)];
    }
  }

  /** The result of a command that does not look at the status: a transport failure or a
      body that is not JSON gives that error's message, otherwise the parsed body. */
  function PlainResult(answer: HttpAnswer): (r: Result<Json, string>)
    ensures answer.TransportError? ==> r == Err(answer.message)
    ensures answer.Response? ==> r == answer.json
  {
    match answer
    case TransportError(e) => Err(e)
    case Response(_, _, json) => json
  }

  /** `fetch_tasks`: without a stored user nothing is sent; otherwise a GET of the task list
      (the user id itself is not sent). */
  function FetchTasks(existingUser: Option<string>, token: string, answer: HttpAnswer): (x: Exchange)
    ensures existingUser.None? ==> x == Exchange(None, Err(NotAuthenticated))
    ensures existingUser.Some? ==>
      x.request == Some(HttpRequest(GetMethod, TasksUrl, Bearer(token), JsonContentType, None))
      && x.result == PlainResult(answer)
  {
    match existingUser
    case None => Exchange(None, Err(NotAuthenticated))
    case Some(_) =>
      Exchange(Some(HttpRequest(GetMethod, TasksUrl, Bearer(token), JsonContentType, None)), PlainResult(answer))
  }

  /** `create_task`: without a stored user nothing is sent; otherwise a POST of the create body.
      A transport failure, a non-success status (with the body text, or "Unknown error" when it
      cannot be read) and an unparsable body each give their own message. */
  function CreateTask(existingUser: Option<string>, token: string, content: string, assignedDate: string,
                      answer: HttpAnswer): (x: Exchange)
    ensures existingUser.None? ==> x == Exchange(None, Err(NotAuthenticated))
    ensures existingUser.Some? ==>
      x.request == Some(HttpRequest(PostMethod, TasksUrl, Bearer(token), JsonContentType,
                                    Some(CreatePayload(content, existingUser.value, assignedDate))))
    ensures existingUser.Some? ==>
      (x.result.Ok? <==> answer.Response? && answer.success && answer.json.Ok?)
    ensures existingUser.Some? && x.result.Ok? ==> x.result.value == answer.json.value
    ensures existingUser.Some? && answer.TransportError? ==>
      x.result == Err("Failed to create task: " + answer.message)
    ensures existingUser.Some? && answer.Response? && !answer.success ==>
      x.result == Err("Server error: " + (if answer.text.Ok? then answer.text.value else "Unknown error"))
    ensures existingUser.Some? && answer.Response? && answer.success && answer.json.Err? ==>
      x.result == Err("Failed to parse response: " + answer.json.error)
  {
    match existingUser
    case None => Exchange(None, Err(NotAuthenticated))
    case Some(userId) =>
      var request := HttpRequest(PostMethod, TasksUrl, Bearer(token), JsonContentType,
                                 Some(CreatePayload(content, userId, assignedDate)));
      var result :=
        match answer
        case TransportError(e) => Err("Failed to create task: " + e)
        case Response(success, text, json) =>
          if !success then Err("Server error: " + match text case Ok(t) => t case Err(_) => "Unknown error")
          else match json
            case Ok(j) => Ok(j)
            case Err(e) => Err("Failed to parse response: " + e);
      Exchange(Some(request), result)
  }

  /** The URL of one task. */
  function TaskUrl(taskId: string): string {
    TasksUrl + "/" + taskId
  }

  /** `update_task`: no user check; a PATCH of the update body to the task's URL, the id
      written in decimal. */
  method UpdateTask(token: string, taskId: nat, content: Option<string>, completed: Option<bool>,
                    day: Option<string>, answer: HttpAnswer) returns (x: Exchange)
    ensures x.request.Some? && x.request.value.verb == PatchMethod
    ensures x.request.value.url == TaskUrl(NatToString(taskId))
    ensures x.request.value.authorization == Bearer(token)
    ensures x.request.value.body.Some? && x.request.value.body.value.JObject?
    ensures var fields := x.request.value.body.value.fields;
      && ("task" in fields <==> content.Some?) && ("done" in fields <==> completed.Some?)
      && ("day" in fields <==> day.Some?) && fields.Keys <= {"task", "done", "day"}
    ensures var fields := x.request.value.body.value.fields;
      && (content.Some? ==> fields["task"] == JString(content.value))
      && (completed.Some? ==> fields["done"] == JBool(completed.value))
      && (day.Some? ==> fields["day"] == JString(day.value))
    ensures x.request.value.contentType == JsonContentType
    ensures x.result == PlainResult(answer)
  {
    var updateData := UpdatePayload(content, completed, day);
    var request := HttpRequest(PatchMethod, TaskUrl(NatToString(taskId)), Bearer(token), JsonContentType,
                               Some(JObject(updateData)));
    x := Exchange(Some(request), PlainResult(answer));
  }

  /** `delete_task`: no user check; a DELETE of the task's URL. */
  function DeleteTask(token: string, taskId: string, answer: HttpAnswer): (x: Exchange)
    ensures x.request == Some(HttpRequest(DeleteMethod, TaskUrl(taskId), Bearer(token), JsonContentType, None))
    ensures x.result == PlainResult(answer)
  {
    Exchange(Some(HttpRequest(DeleteMethod, TaskUrl(taskId), Bearer(token), JsonContentType, None)), PlainResult(answer))
  }

  /** Only fetching and creating are guarded: without a user they send nothing, whatever the
      network would answer, while deleting always sends its request. */
  lemma GuardOnlyOnFetchAndCreate(token: string, content: string, assignedDate: string, taskId: string,
                                  answer: HttpAnswer)
    ensures FetchTasks(None, token, answer).request.None?
    ensures CreateTask(None, token, content, assignedDate, answer).request.None?
    ensures DeleteTask(token, taskId, answer).request.Some?
  {
  }
}
