/** The "ClickUp Delete Task" node: `DELETE /task/{task_id}`, without a body. */
module DeleteTask {
  import opened Wrappers
  import opened Text
  import opened Js
  import opened Coerce
  import opened Action
  import Uri
  import UpdateTask

  /** The node's inputs as the host hands them over; `None` where one is not set. */
  datatype Inputs = Inputs(token: Value, taskId: Value)

  /** The request the node sends: a DELETE to the same URL the update node uses, with no
      body and no `Content-Type`. Building it cannot fail. */
  function BuildRequest(input: Inputs): (r: Request)
    ensures r.verb == Delete && r.body == None
    ensures r.url == Base + "/task/" + Uri.Encode(Trim(StringOr(input.taskId)))
    ensures r.headers == PlainHeaders(StringOr(input.token))
  {
    Request(Delete, UpdateTask.Url(IdInput(input.taskId)), PlainHeaders(StringOr(input.token)), None)
  }

  /** Deleting and updating a task address the same resource. */
  lemma SameResourceAsUpdate(rt: Builtins, input: UpdateTask.Inputs)
    requires UpdateTask.BuildRequest(rt, input).Ok?
    ensures BuildRequest(Inputs(input.token, input.taskId)).url == UpdateTask.BuildRequest(rt, input).value.url
  {
  }

  /** A whole run: the four common outputs are set (no id output), and the run fails
      afterwards exactly when the status is 400 or more. */
  function Execute(input: Inputs, res: Response, elapsed: int): (t: Trace)
    ensures Failure(t) == (if res.status >= 400 then Some(HttpError(res.status, Delete, BuildRequest(input).url)) else None)
    ensures FailsLast(t)
    ensures OutputOf(t, StatusCode) == Some(NumberOut(res.status))
    ensures OutputOf(t, HeadersOut) == Some(MapOut(res.headers.GetOr(map[])))
    ensures OutputOf(t, BodyOut) == Some(StringOut(BodyText(res.data)))
    ensures OutputOf(t, RunTime) == Some(NumberOut(elapsed))
    ensures OutputOf(t, TaskId) == None && OutputOf(t, TimeEntryId) == None
  {
    Respond(res, None, elapsed, Delete, BuildRequest(input).url)
  }

  /** Missing (undefined) response data reads as the two characters `""`, an empty text
      body as the empty string, and a successful delete does not fail either way. */
  lemma EmptyResponse(input: Inputs, headers: Option<map<string, string>>, elapsed: int)
    ensures var t := Execute(input, Response(204, headers, None), elapsed);
      && OutputOf(t, BodyOut) == Some(StringOut("\"\""))
      && Failure(t) == None
    ensures var t := Execute(input, Response(204, headers, Some(Str(""))), elapsed);
      && OutputOf(t, BodyOut) == Some(StringOut(""))
      && Failure(t) == None
  {
  }
}
