/** The "ClickUp Update Task" node: `PUT /task/{task_id}` with only the fields that were
    given. */
module UpdateTask {
  import opened Wrappers
  import opened Text
  import opened Js
  import opened Coerce
  import opened Action
  import Uri

  /** The node's inputs as the host hands them over; `None` where one is not set. */
  datatype Inputs = Inputs(
    token: Value,
    taskId: Value,
    name: Value,
    description: Value,
    status: Value,
    priority: Value,
    due: Value,
    addAssignees: Value,
    removeAssignees: Value,
    archived: Value,
    notifyAll: Value)

  /** The keys an update body can hold. */
  const BodyKeys: set<string> :=
    {"notify_all", "name", "description", "status", "priority", "due_date", "due_date_time",
     "add_assignees", "remove_assignees", "archived"}

  /** `${BASE}/task/${encodeURIComponent(taskId)}`. */
  function Url(taskId: string): (url: string)
    ensures url == Base + "/task/" + Uri.Encode(taskId)
  {
    Path2("task", Uri.Encode(taskId));
    Endpoint(["task", Uri.Encode(taskId)])
  }

  /** The URL names the task: its path is `task/{id}`, and the last segment decodes to the
      task id. */
  lemma UrlNamesTask(taskId: string)
    ensures PathOf(Url(taskId)) == Some(["task", Uri.Encode(taskId)])
    ensures Uri.Decode(PathOf(Url(taskId)).value[1]) == Some(taskId)
  {
    var segments := ["task", Uri.Encode(taskId)];
    EncodedSegment(taskId);
    EndpointPath(segments);
    assert Url(taskId) == Endpoint(segments);
  }

  /** The request body. The due date is read first, then the two assignee lists; each
      throws a TypeError on a truthy non-string. */
  function Body(rt: Builtins, input: Inputs): (r: Result<Object>)
    ensures r.Throw? <==> TrimThrows(input.due) || TrimThrows(input.addAssignees) || TrimThrows(input.removeAssignees)
    ensures r.Throw? ==> r.error == TrimNotAFunction
    ensures r.Ok? ==> r.value == Assemble(input, DueMs(rt, input.due).value,
      ParseIds(rt, input.addAssignees).value, ParseIds(rt, input.removeAssignees).value)
  {
    var dueMs :- DueMs(rt, input.due);
    var add :- ParseIds(rt, input.addAssignees);
    var remove :- ParseIds(rt, input.removeAssignees);
    Ok(Assemble(input, dueMs, add, remove))
  }

  /** The body's properties in the order the node sets them, each with its value or
      `None` where the node leaves it out. */
  function Entries(input: Inputs, dueMs: Option<int>, add: Option<seq<int>>, remove: Option<seq<int>>): seq<(string, Value)> {
    [ ("notify_all", Some(Coalesce(input.notifyAll, Bool(false)))),
      ("name", IfTruthy(input.name)),
      ("description", IfTruthy(input.description)),
      ("status", IfTruthy(input.status)),
      ("priority", Priority(input.priority)),
      ("due_date", Millis(dueMs)),
      ("due_date_time", DueDateTime(input.due, dueMs)),
      ("add_assignees", IdList(add)),
      ("remove_assignees", IdList(remove)),
      ("archived", IfBool(input.archived)) ]
  }

  /** The body object, given the due time and the two parsed assignee lists. */
  function Assemble(input: Inputs, dueMs: Option<int>, add: Option<seq<int>>, remove: Option<seq<int>>): Object {
    Collect(Entries(input, dueMs, add, remove))
  }

  /** `notify_all` is always sent, `false` when unset; the name, the description and the
      status only when truthy, and then as given (the name is not trimmed here). */
  lemma BodyTexts(input: Inputs, dueMs: Option<int>, add: Option<seq<int>>, remove: Option<seq<int>>)
    ensures var b := Assemble(input, dueMs, add, remove);
      && Field(b, "notify_all") == Some(if Nullish(input.notifyAll) then Bool(false) else input.notifyAll.value)
      && Field(b, "name") == (if Truthy(input.name) then input.name else None)
      && Field(b, "description") == (if Truthy(input.description) then input.description else None)
      && Field(b, "status") == (if Truthy(input.status) then input.status else None)
  {
    var entries := Entries(input, dueMs, add, remove);
    CollectField(entries, 0);
    CollectField(entries, 1);
    CollectField(entries, 2);
    CollectField(entries, 3);
  }

  /** The priority only when it is one of the numbers 1 to 4, and `archived` whenever it is
      a boolean, `false` included. */
  lemma BodyFlags(input: Inputs, dueMs: Option<int>, add: Option<seq<int>>, remove: Option<seq<int>>)
    ensures var b := Assemble(input, dueMs, add, remove);
      && Field(b, "priority") ==
        (if input.priority in {Some(Num(1)), Some(Num(2)), Some(Num(3)), Some(Num(4))} then input.priority else None)
      && Field(b, "archived") == (if input.archived.Some? && input.archived.value.Bool? then input.archived else None)
  {
    var entries := Entries(input, dueMs, add, remove);
    CollectField(entries, 4);
    CollectField(entries, 9);
  }

  /** Each assignee list is sent only when it yields at least one id, as the array of those
      ids. */
  lemma BodyAssignees(input: Inputs, dueMs: Option<int>, add: Option<seq<int>>, remove: Option<seq<int>>)
    ensures var b := Assemble(input, dueMs, add, remove);
      && Field(b, "add_assignees") ==
        (if add.Some? && |add.value| > 0
         then Some(Arr(seq(|add.value|, i requires 0 <= i < |add.value| => Num(add.value[i]))))
         else None)
      && Field(b, "remove_assignees") ==
        (if remove.Some? && |remove.value| > 0
         then Some(Arr(seq(|remove.value|, i requires 0 <= i < |remove.value| => Num(remove.value[i]))))
         else None)
  {
    var entries := Entries(input, dueMs, add, remove);
    CollectField(entries, 7);
    CollectField(entries, 8);
    if add.Some? && |add.value| > 0 {
      assert IdList(add).value.items == seq(|add.value|, i requires 0 <= i < |add.value| => Num(add.value[i]));
    }
    if remove.Some? && |remove.value| > 0 {
      assert IdList(remove).value.items == seq(|remove.value|, i requires 0 <= i < |remove.value| => Num(remove.value[i]));
    }
  }

  /** `due_date` is sent whenever the due input gives a time, and `due_date_time: true`
      beside it exactly when that input is not a bare run of digits. */
  lemma BodyDue(input: Inputs, dueMs: Option<int>, add: Option<seq<int>>, remove: Option<seq<int>>)
    requires dueMs.Some? ==> NonBlankString(input.due)
    ensures var b := Assemble(input, dueMs, add, remove);
      && Field(b, "due_date") == (if dueMs.Some? then Some(Num(dueMs.value)) else None)
      && Field(b, "due_date_time") ==
        (if dueMs.Some? && !AllDigits(input.due.value.s) then Some(Bool(true)) else None)
  {
    var entries := Entries(input, dueMs, add, remove);
    CollectField(entries, 5);
    CollectField(entries, 6);
  }

  /** Nothing outside the documented keys is ever sent. */
  lemma BodyKnownKeys(input: Inputs, dueMs: Option<int>, add: Option<seq<int>>, remove: Option<seq<int>>, k: string)
    requires k !in BodyKeys
    ensures Field(Assemble(input, dueMs, add, remove), k) == None
  {
    CollectAbsent(Entries(input, dueMs, add, remove), k);
  }

  /** An update that sets nothing still sends `notify_all`, and only that. */
  lemma NothingToUpdate(rt: Builtins, token: Value, taskId: Value)
    ensures Body(rt, Inputs(token, taskId, None, None, None, None, None, None, None, None, None)) ==
      Ok(map["notify_all" := Bool(false)])
  {
    var input := Inputs(token, taskId, None, None, None, None, None, None, None, None, None);
    var b := Assemble(input, None, None, None);
    BodyTexts(input, None, None, None);
    BodyFlags(input, None, None, None);
    BodyAssignees(input, None, None, None);
    BodyDue(input, None, None, None);
    forall k | k !in BodyKeys ensures k !in b {
      BodyKnownKeys(input, None, None, None, k);
    }
    assert b.Keys == {"notify_all"};
    assert b == map["notify_all" := Bool(false)];
    assert DueMs(rt, None) == Ok(None) && ParseIds(rt, None) == Ok(None);
  }

  /** The request the node sends: a PUT with a JSON body to the task. */
  function BuildRequest(rt: Builtins, input: Inputs): (r: Result<Request>)
    ensures r.Throw? <==> Body(rt, input).Throw?
    ensures r.Ok? ==> r.value.verb == Put && r.value.body == Some(Body(rt, input).value)
    ensures r.Ok? ==> r.value.url == Base + "/task/" + Uri.Encode(Trim(StringOr(input.taskId)))
    ensures r.Ok? ==> r.value.headers == JsonHeaders(StringOr(input.token))
  {
    var body :- Body(rt, input);
    Ok(Request(Put, Url(IdInput(input.taskId)), JsonHeaders(StringOr(input.token)), Some(body)))
  }

  /** A whole run: a TypeError while building the body fails it before any output is set;
      otherwise the four common outputs are set (no id output), and the run fails afterwards
      exactly when the status is 400 or more. */
  function Execute(rt: Builtins, input: Inputs, res: Response, elapsed: int): (t: Trace)
    ensures BuildRequest(rt, input).Throw? ==>
      Failure(t) == Some(TrimNotAFunction) && forall n :: OutputOf(t, n) == None
    ensures BuildRequest(rt, input).Ok? ==>
      var url := Base + "/task/" + Uri.Encode(Trim(StringOr(input.taskId)));
      && Failure(t) == (if res.status >= 400 then Some(HttpError(res.status, Put, url)) else None)
      && FailsLast(t)
      && OutputOf(t, StatusCode) == Some(NumberOut(res.status))
      && OutputOf(t, HeadersOut) == Some(MapOut(res.headers.GetOr(map[])))
      && OutputOf(t, BodyOut) == Some(StringOut(BodyText(res.data)))
      && OutputOf(t, RunTime) == Some(NumberOut(elapsed))
      && OutputOf(t, TaskId) == None && OutputOf(t, TimeEntryId) == None
  {
    match BuildRequest(rt, input)
    case Throw(e) =>
      forall n ensures OutputOf([Raise(e)], n) == None {
        OutputOfOne(Raise(e), n);
      }
      [Raise(e)]
    case Ok(req) => Respond(res, None, elapsed, Put, req.url)
  }
}
