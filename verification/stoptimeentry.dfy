/** The "ClickUp Stop Time Entry" node: `POST /team/{team_id}/time_entries/stop`, which
    stops the running timer, optionally at a given end time. */
module StopTimeEntry {
  import opened Wrappers
  import opened Text
  import opened Js
  import opened Coerce
  import opened Action
  import opened TimeEntry
  import Uri
  import StartTimeEntry

  /** The node's inputs as the host hands them over; `None` where one is not set. */
  datatype Inputs = Inputs(token: Value, teamId: Value, end: Value)

  /** `${BASE}/team/${encodeURIComponent(teamId)}/time_entries/stop`. */
  function Url(teamId: string): string {
    Root(teamId) + "/" + "stop"
  }

  /** The URL names the team and the `stop` action below its time entries, so stopping a
      timer never addresses the place where some team's timer is started. */
  lemma UrlNamesTeam(teamId: string, other: string)
    ensures PathOf(Url(teamId)) == Some(RootSegments(teamId) + ["stop"])
    ensures Uri.Decode(PathOf(Url(teamId)).value[1]) == Some(teamId)
    ensures Url(teamId) != StartTimeEntry.Url(other)
  {
    BelowRootNamesTeam(teamId, "stop");
    BelowRootNamesTeam(other, "start");
    assert (RootSegments(teamId) + ["stop"])[3] == "stop";
    assert (RootSegments(other) + ["start"])[3] == "start";
  }

  /** The request body: `end` exactly when END gives a time, and nothing else. Building it
      cannot fail. */
  function Body(rt: Builtins, input: Inputs): (b: Object)
    ensures Field(b, "end") == (if TimeMs(rt, input.end).Some? then Some(Num(TimeMs(rt, input.end).value)) else None)
    ensures forall k | k != "end" :: Field(b, k) == None
  {
    Include(map[], "end", Millis(TimeMs(rt, input.end)))
  }

  /** Without an end time the timer is stopped with an empty body `{}`. */
  lemma StopsNowWithoutEnd(rt: Builtins, input: Inputs)
    requires Nullish(input.end)
    ensures Body(rt, input) == map[]
  {
    forall k ensures Field(Body(rt, input), k) == Field(map[], k) {
    }
    SameFields(Body(rt, input), map[]);
  }

  /** The request the node sends: a POST with a JSON body to the team's timer stop. */
  function BuildRequest(rt: Builtins, input: Inputs): (r: Request)
    ensures r.verb == Post && r.body == Some(Body(rt, input))
    ensures r.url == Url(IdInput(input.teamId))
    ensures r.headers == JsonHeaders(StringOr(input.token))
  {
    Request(Post, Url(IdInput(input.teamId)), JsonHeaders(StringOr(input.token)), Some(Body(rt, input)))
  }

  /** A whole run: all five outputs are set, the Time Entry ID read as the start node reads
      it, and the run fails afterwards exactly when the status is 400 or more. */
  function Execute(rt: Builtins, input: Inputs, res: Response, elapsed: int): (t: Trace)
    ensures Failure(t) == (if res.status >= 400 then Some(HttpError(res.status, Post, BuildRequest(rt, input).url)) else None)
    ensures FailsLast(t)
    ensures OutputOf(t, StatusCode) == Some(NumberOut(res.status))
    ensures OutputOf(t, TimeEntryId) == Some(StringOut(EntryId(rt, res.data, "")))
    ensures OutputOf(t, HeadersOut) == Some(MapOut(res.headers.GetOr(map[])))
    ensures OutputOf(t, BodyOut) == Some(StringOut(BodyText(res.data)))
    ensures OutputOf(t, RunTime) == Some(NumberOut(elapsed))
    ensures OutputOf(t, TaskId) == None
  {
    Respond(res, Some((TimeEntryId, EntryId(rt, res.data, ""))), elapsed, Post, BuildRequest(rt, input).url)
  }

  /** A stop response `{"data": {"id": "time_abc"}}` gives the Time Entry ID "time_abc". */
  lemma EntryIdOfData(rt: Builtins)
    ensures EntryId(rt, Some(Obj([("data", Obj([("id", Str("time_abc"))]))])), "") == "time_abc"
  {
    var v := Some(Obj([("data", Obj([("id", Str("time_abc"))]))]));
    assert Probe(v, ["id"]) == None && Probe(v, ["timer_id"]) == None;
    assert Probe(v, ["data", "id"]) == Some(Str("time_abc"));
    assert FirstHit(v, EntryIdPaths, 2);
  }
}
