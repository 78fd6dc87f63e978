/** The "ClickUp Start Time Entry" node: `POST /team/{team_id}/time_entries/start`, which
    starts a running timer. */
module StartTimeEntry {
  import opened Wrappers
  import opened Text
  import opened Js
  import opened Coerce
  import opened Action
  import opened TimeEntry
  import Uri
  import CreateTimeEntry

  /** The node's inputs as the host hands them over; `None` where one is not set. */
  datatype Inputs = Inputs(
    token: Value,
    teamId: Value,
    taskId: Value,
    start: Value,
    description: Value,
    billable: Value,
    tags: Value)

  /** The keys a start body can hold. */
  const BodyKeys: set<string> := {"start", "tid", "description", "billable", "tags"}

  /** `${BASE}/team/${encodeURIComponent(teamId)}/time_entries/start`. */
  function Url(teamId: string): string {
    Root(teamId) + "/" + "start"
  }

  /** The URL names the team and the `start` action below its time entries, so it is not
      the create endpoint of any team. */
  lemma UrlNamesTeam(teamId: string, other: string)
    ensures PathOf(Url(teamId)) == Some(RootSegments(teamId) + ["start"])
    ensures Uri.Decode(PathOf(Url(teamId)).value[1]) == Some(teamId)
    ensures Url(teamId) != Root(other)
  {
    BelowRootNamesTeam(teamId, "start");
    RootNamesTeam(other);
  }

  /** The request body. Only `parseTags` can throw, on a tag input that is neither `null`,
      `undefined` nor a string. */
  function Body(rt: Builtins, input: Inputs): (r: Result<Object>)
    ensures r.Throw? <==> !Nullish(input.tags) && !input.tags.value.Str?
    ensures r.Throw? ==> r.error == TrimNotAFunction
    ensures r.Ok? ==> r.value == Assemble(input, TimeMs(rt, input.start), ParseTags(input.tags).value)
  {
    var tags :- ParseTags(input.tags);
    Ok(Assemble(input, TimeMs(rt, input.start), tags))
  }

  /** The body's properties in the order the node sets them, each with its value or `None`
      where the node leaves it out. */
  function Entries(input: Inputs, start: Option<int>, tags: Option<seq<string>>): seq<(string, Value)> {
    [ ("start", Millis(start)),
      ("tid", IfTruthy(input.taskId)),
      ("description", IfTruthy(input.description)),
      ("billable", IfBool(input.billable)),
      ("tags", TagList(tags)) ]
  }

  /** The body object, given the start time and the parsed tags. */
  function Assemble(input: Inputs, start: Option<int>, tags: Option<seq<string>>): Object {
    Collect(Entries(input, start, tags))
  }

  /** Each property of the start body: `start` when START gives a time, the task id and
      the description when truthy, `billable` when a boolean, the tags when any are left. */
  lemma BodyFields(input: Inputs, start: Option<int>, tags: Option<seq<string>>)
    ensures var b := Assemble(input, start, tags);
      && Field(b, "start") == (if start.Some? then Some(Num(start.value)) else None)
      && Field(b, "tid") == (if Truthy(input.taskId) then input.taskId else None)
      && Field(b, "description") == (if Truthy(input.description) then input.description else None)
      && Field(b, "billable") == (if input.billable.Some? && input.billable.value.Bool? then input.billable else None)
      && Field(b, "tags") == TagList(tags)
  {
    var entries := Entries(input, start, tags);
    CollectField(entries, 0);
    CollectField(entries, 1);
    CollectField(entries, 2);
    CollectField(entries, 3);
    CollectField(entries, 4);
  }

  /** Nothing outside the documented keys is ever sent. */
  lemma BodyKnownKeys(input: Inputs, start: Option<int>, tags: Option<seq<string>>, k: string)
    requires k !in BodyKeys
    ensures Field(Assemble(input, start, tags), k) == None
  {
    CollectAbsent(Entries(input, start, tags), k);
  }

  /** The inputs of a create run with START_NOW `false` and neither an end nor a duration. */
  function AsCreate(input: Inputs): CreateTimeEntry.Inputs {
    CreateTimeEntry.Inputs(input.token, input.teamId, input.taskId, input.start, None, None,
      input.description, input.billable, input.tags, Some(Bool(false)))
  }

  /** Starting a timer sends the body a create run would send with START_NOW `false` and no
      end or duration: unlike the create node, the start node never stamps the current time. */
  lemma BodyAsCreate(rt: Builtins, input: Inputs, now: int)
    ensures Body(rt, input) == CreateTimeEntry.Body(rt, AsCreate(input), now)
  {
    var c := AsCreate(input);
    var tags := ParseTags(input.tags);
    if tags.Ok? {
      var start := TimeMs(rt, input.start);
      var a := Assemble(input, start, tags.value);
      assert TimeMs(rt, c.end) == None;
      var b := CreateTimeEntry.Assemble(c, start, None, tags.value);
      BodyFields(input, start, tags.value);
      CreateTimeEntry.BodyTimes(c, start, None, tags.value);
      CreateTimeEntry.BodyOptional(c, start, None, tags.value);
      CreateTimeEntry.BodyTags(c, start, None, tags.value);
      forall k ensures Field(a, k) == Field(b, k) {
        if k !in CreateTimeEntry.BodyKeys {
          BodyKnownKeys(input, start, tags.value, k);
          CreateTimeEntry.BodyKnownKeys(c, start, None, tags.value, k);
        } else if k !in BodyKeys {
          assert k == "end" || k == "duration";
          BodyKnownKeys(input, start, tags.value, k);
        }
      }
      SameFields(a, b);
    }
  }

  /** The request the node sends: a POST with a JSON body to the team's timer start. */
  function BuildRequest(rt: Builtins, input: Inputs): (r: Result<Request>)
    ensures r.Throw? <==> Body(rt, input).Throw?
    ensures r.Ok? ==> r.value.verb == Post && r.value.body == Some(Body(rt, input).value)
    ensures r.Ok? ==> r.value.url == Url(IdInput(input.teamId))
    ensures r.Ok? ==> r.value.headers == JsonHeaders(StringOr(input.token))
  {
    var body :- Body(rt, input);
    Ok(Request(Post, Url(IdInput(input.teamId)), JsonHeaders(StringOr(input.token)), Some(body)))
  }

  /** A response that carries the id only as `time_entry_id` is read by the create node but
      not by the start node, which leaves the Time Entry ID empty. */
  lemma TimeEntryIdOnlyOnCreate(rt: Builtins)
    ensures CreateTimeEntry.EntryIdOf(rt, Some(Obj([("time_entry_id", Str("77"))]))) == "77"
    ensures EntryId(rt, Some(Obj([("time_entry_id", Str("77"))])), "") == ""
  {
    var v := Some(Obj([("time_entry_id", Str("77"))]));
    assert Probe(v, ["id"]) == None && Probe(v, ["timer_id"]) == None;
    assert Probe(v, ["time_entry_id"]) == Some(Str("77"));
    assert FirstHit(v, CreateTimeEntry.IdPaths, 2);
    assert Probe(v, ["data", "id"]) == None && Probe(v, ["time_entry", "id"]) == None;
    assert NoHit(v, EntryIdPaths);
  }

  /** A whole run: a TypeError from the tags fails it before any output is set; otherwise
      all five outputs are set, and the run fails afterwards exactly when the status is 400 or
      more. */
  function Execute(rt: Builtins, input: Inputs, res: Response, elapsed: int): (t: Trace)
    ensures BuildRequest(rt, input).Throw? ==>
      Failure(t) == Some(TrimNotAFunction) && forall n :: OutputOf(t, n) == None
    ensures BuildRequest(rt, input).Ok? ==>
      var url := Url(IdInput(input.teamId));
      && Failure(t) == (if res.status >= 400 then Some(HttpError(res.status, Post, url)) else None)
      && FailsLast(t)
      && OutputOf(t, StatusCode) == Some(NumberOut(res.status))
      && OutputOf(t, TimeEntryId) == Some(StringOut(EntryId(rt, res.data, "")))
      && OutputOf(t, HeadersOut) == Some(MapOut(res.headers.GetOr(map[])))
      && OutputOf(t, BodyOut) == Some(StringOut(BodyText(res.data)))
      && OutputOf(t, RunTime) == Some(NumberOut(elapsed))
      && OutputOf(t, TaskId) == None
  {
    match BuildRequest(rt, input)
    case Throw(e) =>
      assert e == TrimNotAFunction;
      forall n ensures OutputOf([Raise(e)], n) == None {
        OutputOfOne(Raise(e), n);
      }
      [Raise(e)]
    case Ok(req) => Respond(res, Some((TimeEntryId, EntryId(rt, res.data, ""))), elapsed, Post, req.url)
  }
}
