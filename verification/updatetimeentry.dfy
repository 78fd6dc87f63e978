/** The "ClickUp Update Time Entry" node: `PUT /team/{team_id}/time_entries/{timer_id}` with
    only the fields that were given. */
module UpdateTimeEntry {
  import opened Wrappers
  import opened Text
  import opened Js
  import opened Coerce
  import opened Action
  import opened TimeEntry
  import Uri
  import CreateTimeEntry

  /** The node's inputs as the host hands them over; `None` where one is not set. */
  datatype Inputs = Inputs(
    token: Value,
    teamId: Value,
    timerId: Value,
    taskId: Value,
    start: Value,
    end: Value,
    duration: Value,
    description: Value,
    billable: Value,
    tags: Value)

  /** `${BASE}/team/${encodeURIComponent(teamId)}/time_entries/${encodeURIComponent(timerId)}`. */
  function Url(teamId: string, timerId: string): string {
    Root(teamId) + "/" + Uri.Encode(timerId)
  }

  /** The URL names the entry: its path is `team/{team}/time_entries/{timer}`, and the
      second and fourth segments decode to the team id and the timer id. */
  lemma UrlNamesEntry(teamId: string, timerId: string)
    ensures PathOf(Url(teamId, timerId)) == Some(RootSegments(teamId) + [Uri.Encode(timerId)])
    ensures Uri.Decode(PathOf(Url(teamId, timerId)).value[1]) == Some(teamId)
    ensures Uri.Decode(PathOf(Url(teamId, timerId)).value[3]) == Some(timerId)
  {
    EncodedSegment(timerId);
    BelowRootNamesTeam(teamId, Uri.Encode(timerId));
  }

  /** Different entries have different URLs. */
  lemma UrlInjective(team1: string, timer1: string, team2: string, timer2: string)
    requires Url(team1, timer1) == Url(team2, timer2)
    ensures team1 == team2 && timer1 == timer2
  {
    UrlNamesEntry(team1, timer1);
    UrlNamesEntry(team2, timer2);
  }

  /** The request body. Only `parseTags` can throw, on a tag input that is neither `null`,
      `undefined` nor a string. */
  function Body(rt: Builtins, input: Inputs): (r: Result<Object>)
    ensures r.Throw? <==> !Nullish(input.tags) && !input.tags.value.Str?
    ensures r.Throw? ==> r.error == TrimNotAFunction
    ensures r.Ok? ==>
      r.value == Assemble(input, TimeMs(rt, input.start), TimeMs(rt, input.end), ParseTags(input.tags).value)
  {
    var tags :- ParseTags(input.tags);
    Ok(Assemble(input, TimeMs(rt, input.start), TimeMs(rt, input.end), tags))
  }

  /** The body's properties in the order the node sets them, each with its value or `None`
      where the node leaves it out. */
  function Entries(input: Inputs, start: Option<int>, end: Option<int>, tags: Option<seq<string>>): seq<(string, Value)> {
    [ ("start", Millis(start)),
      ("end", Millis(end)),
      ("duration", IfNumber(input.duration)),
      ("tid", IfTruthy(input.taskId)),
      ("description", IfTruthy(input.description)),
      ("billable", IfBool(input.billable)),
      ("tags", TagList(tags)) ]
  }

  /** The body object, given the start and end times and the parsed tags. */
  function Assemble(input: Inputs, start: Option<int>, end: Option<int>, tags: Option<seq<string>>): Object {
    Collect(Entries(input, start, end, tags))
  }

  /** Each property of the update body: the times when there are any, the duration when a
      number, the task id and the description when truthy, `billable` when a boolean and the
      tags when any are left. */
  lemma BodyFields(input: Inputs, start: Option<int>, end: Option<int>, tags: Option<seq<string>>)
    ensures var b := Assemble(input, start, end, tags);
      && Field(b, "start") == (if start.Some? then Some(Num(start.value)) else None)
      && Field(b, "end") == (if end.Some? then Some(Num(end.value)) else None)
      && Field(b, "duration") == (if input.duration.Some? && input.duration.value.Num? then input.duration else None)
      && Field(b, "tid") == (if Truthy(input.taskId) then input.taskId else None)
      && Field(b, "description") == (if Truthy(input.description) then input.description else None)
      && Field(b, "billable") == (if input.billable.Some? && input.billable.value.Bool? then input.billable else None)
      && Field(b, "tags") == TagList(tags)
  {
    var entries := Entries(input, start, end, tags);
    CollectField(entries, 0);
    CollectField(entries, 1);
    CollectField(entries, 2);
    CollectField(entries, 3);
    CollectField(entries, 4);
    CollectField(entries, 5);
    CollectField(entries, 6);
  }

  /** Nothing outside the keys of a create body is ever sent. */
  lemma BodyKnownKeys(input: Inputs, start: Option<int>, end: Option<int>, tags: Option<seq<string>>, k: string)
    requires k !in CreateTimeEntry.BodyKeys
    ensures Field(Assemble(input, start, end, tags), k) == None
  {
    CollectAbsent(Entries(input, start, end, tags), k);
  }

  /** The inputs of a create run with the same fields and START_NOW `false`. */
  function AsCreate(input: Inputs): CreateTimeEntry.Inputs {
    CreateTimeEntry.Inputs(input.token, input.teamId, input.taskId, input.start, input.end, input.duration,
      input.description, input.billable, input.tags, Some(Bool(false)))
  }

  /** An update sends the body a create run with the same fields would send with START_NOW
      `false`: the update node never stamps the current time. */
  lemma BodyAsCreate(rt: Builtins, input: Inputs, now: int)
    ensures Body(rt, input) == CreateTimeEntry.Body(rt, AsCreate(input), now)
  {
    var c := AsCreate(input);
    var tags := ParseTags(input.tags);
    if tags.Ok? {
      var start := TimeMs(rt, input.start);
      var end := TimeMs(rt, input.end);
      var a := Assemble(input, start, end, tags.value);
      var b := CreateTimeEntry.Assemble(c, start, end, tags.value);
      BodyFields(input, start, end, tags.value);
      CreateTimeEntry.BodyTimes(c, start, end, tags.value);
      CreateTimeEntry.BodyOptional(c, start, end, tags.value);
      CreateTimeEntry.BodyTags(c, start, end, tags.value);
      forall k ensures Field(a, k) == Field(b, k) {
        if k !in CreateTimeEntry.BodyKeys {
          BodyKnownKeys(input, start, end, tags.value, k);
          CreateTimeEntry.BodyKnownKeys(c, start, end, tags.value, k);
        }
      }
      SameFields(a, b);
    }
  }

  /** The request the node sends: a PUT with a JSON body to the entry. */
  function BuildRequest(rt: Builtins, input: Inputs): (r: Result<Request>)
    ensures r.Throw? <==> Body(rt, input).Throw?
    ensures r.Ok? ==> r.value.verb == Put && r.value.body == Some(Body(rt, input).value)
    ensures r.Ok? ==> r.value.url == Url(IdInput(input.teamId), IdInput(input.timerId))
    ensures r.Ok? ==> r.value.headers == JsonHeaders(StringOr(input.token))
  {
    var body :- Body(rt, input);
    Ok(Request(Put, Url(IdInput(input.teamId), IdInput(input.timerId)), JsonHeaders(StringOr(input.token)), Some(body)))
  }

  /** A whole run: a TypeError from the tags fails it before any output is set; otherwise
      all five outputs are set, the Time Entry ID falling back to the timer id the node was
      given, and the run fails afterwards exactly when the status is 400 or more. */
  function Execute(rt: Builtins, input: Inputs, res: Response, elapsed: int): (t: Trace)
    ensures BuildRequest(rt, input).Throw? ==>
      Failure(t) == Some(TrimNotAFunction) && forall n :: OutputOf(t, n) == None
    ensures BuildRequest(rt, input).Ok? ==>
      var url := Url(IdInput(input.teamId), IdInput(input.timerId));
      && Failure(t) == (if res.status >= 400 then Some(HttpError(res.status, Put, url)) else None)
      && FailsLast(t)
      && OutputOf(t, StatusCode) == Some(NumberOut(res.status))
      && OutputOf(t, TimeEntryId) == Some(StringOut(EntryId(rt, res.data, IdInput(input.timerId))))
      && OutputOf(t, HeadersOut) == Some(MapOut(res.headers.GetOr(map[])))
      && OutputOf(t, BodyOut) == Some(StringOut(BodyText(res.data)))
      && OutputOf(t, RunTime) == Some(NumberOut(elapsed))
      && OutputOf(t, TaskId) == None
  {
    match BuildRequest(rt, input)
    case Throw(e) =>
      assert e == TrimNotAFunction;
      forall n ensures OutputOf([Raise(e)], n) == None {
        OutputOfOne(Raise(e), n);
      }
      [Raise(e)]
    case Ok(req) =>
      Respond(res, Some((TimeEntryId, EntryId(rt, res.data, IdInput(input.timerId)))), elapsed, Put, req.url)
  }

  /** A response without an object in it (no data, or text that does not parse) echoes the
      trimmed timer id as the Time Entry ID. */
  lemma EchoesTimerId(rt: Builtins, input: Inputs, res: Response, elapsed: int)
    requires BuildRequest(rt, input).Ok?
    requires Nullish(res.data) || (res.data.Some? && res.data.value.Str? && rt.parseJson(res.data.value.s).None?)
    ensures OutputOf(Execute(rt, input, res, elapsed), TimeEntryId) == Some(StringOut(Trim(StringOr(input.timerId))))
  {
  }
}
