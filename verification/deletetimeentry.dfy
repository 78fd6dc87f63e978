/** The "ClickUp Delete Time Entry" node: `DELETE /team/{team_id}/time_entries/{timer_id}`,
    without a body. */
module DeleteTimeEntry {
  import opened Wrappers
  import opened Text
  import opened Js
  import opened Coerce
  import opened Action
  import opened TimeEntry
  import Uri
  import UpdateTimeEntry

  /** The node's inputs as the host hands them over; `None` where one is not set. */
  datatype Inputs = Inputs(token: Value, teamId: Value, timerId: Value)

  /** The request the node sends: a DELETE to the entry the update node would change, with
      no body and no `Content-Type`. Building it cannot fail. */
  function BuildRequest(input: Inputs): (r: Request)
    ensures r.verb == Delete && r.body == None
    ensures r.url == Root(Trim(StringOr(input.teamId))) + "/" + Uri.Encode(Trim(StringOr(input.timerId)))
    ensures r.headers == PlainHeaders(StringOr(input.token))
  {
    Request(Delete, UpdateTimeEntry.Url(IdInput(input.teamId), IdInput(input.timerId)), PlainHeaders(StringOr(input.token)), None)
  }

  /** Deleting and updating an entry address the same resource. */
  lemma SameResourceAsUpdate(rt: Builtins, input: UpdateTimeEntry.Inputs)
    requires UpdateTimeEntry.BuildRequest(rt, input).Ok?
    ensures BuildRequest(Inputs(input.token, input.teamId, input.timerId)).url ==
      UpdateTimeEntry.BuildRequest(rt, input).value.url
  {
  }

  /** A whole run: all five outputs are set, the Time Entry ID being the timer id the node
      was given whatever the response says, and the run fails afterwards exactly when the
      status is 400 or more. */
  function Execute(input: Inputs, res: Response, elapsed: int): (t: Trace)
    ensures Failure(t) == (if res.status >= 400 then Some(HttpError(res.status, Delete, BuildRequest(input).url)) else None)
    ensures FailsLast(t)
    ensures OutputOf(t, StatusCode) == Some(NumberOut(res.status))
    ensures OutputOf(t, TimeEntryId) == Some(StringOut(Trim(StringOr(input.timerId))))
    ensures OutputOf(t, HeadersOut) == Some(MapOut(res.headers.GetOr(map[])))
    ensures OutputOf(t, BodyOut) == Some(StringOut(BodyText(res.data)))
    ensures OutputOf(t, RunTime) == Some(NumberOut(elapsed))
    ensures OutputOf(t, TaskId) == None
  {
    Respond(res, Some((TimeEntryId, IdInput(input.timerId))), elapsed, Delete, BuildRequest(input).url)
  }

  /** When the response carries no object, deleting and updating an entry report the same
      Time Entry ID: the timer id they were given. */
  lemma SameIdAsUpdate(rt: Builtins, input: UpdateTimeEntry.Inputs, res: Response, elapsed: int)
    requires UpdateTimeEntry.BuildRequest(rt, input).Ok?
    requires Nullish(res.data)
    ensures OutputOf(Execute(Inputs(input.token, input.teamId, input.timerId), res, elapsed), TimeEntryId) ==
      OutputOf(UpdateTimeEntry.Execute(rt, input, res, elapsed), TimeEntryId)
  {
    UpdateTimeEntry.EchoesTimerId(rt, input, res, elapsed);
  }
}
