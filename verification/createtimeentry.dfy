/** The "ClickUp Create Time Entry" node: `POST /team/{team_id}/time_entries`. Unless
    START_NOW is `false`, the entry starts at the current time. */
module CreateTimeEntry {
  import opened Wrappers
  import opened Text
  import opened Js
  import opened Coerce
  import opened Action
  import opened TimeEntry
  import Uri

  /** The node's inputs as the host hands them over; `None` where one is not set. */
  datatype Inputs = Inputs(
    token: Value,
    teamId: Value,
    taskId: Value,
    start: Value,
    end: Value,
    duration: Value,
    description: Value,
    billable: Value,
    tags: Value,
    startNow: Value)

  /** The keys a create body can hold. */
  const BodyKeys: set<string> := {"start", "end", "duration", "tid", "description", "billable", "tags"}

  /** The start time: `now` unless START_NOW is exactly `false`, and then the START input
      read by `toMs`. Only a START_NOW of `false` can leave an entry without a start, and only
      then does START matter. */
  function StartMs(rt: Builtins, input: Inputs, now: int): (r: Option<int>)
    ensures input.startNow != Some(Bool(false)) ==> r == Some(now)
    ensures r.None? ==> input.startNow == Some(Bool(false)) && TimeMs(rt, input.start).None?
    ensures r != Some(now) ==> r == TimeMs(rt, input.start)
    ensures input.startNow == Some(Bool(false)) ==> r == TimeMs(rt, input.start)
  {
    if input.startNow != Some(Bool(false)) then Some(now) else TimeMs(rt, input.start)
  }

  /** The request body, given the current time `now`. Only `parseTags` can throw, on a tag
      input that is neither `null`, `undefined` nor a string. */
  function Body(rt: Builtins, input: Inputs, now: int): (r: Result<Object>)
    ensures r.Throw? <==> !Nullish(input.tags) && !input.tags.value.Str?
    ensures r.Throw? ==> r.error == TrimNotAFunction
    ensures r.Ok? ==>
      r.value == Assemble(input, StartMs(rt, input, now), TimeMs(rt, input.end), ParseTags(input.tags).value)
  {
    var tags :- ParseTags(input.tags);
    Ok(Assemble(input, StartMs(rt, input, now), TimeMs(rt, input.end), tags))
  }

  /** The body's properties in the order the node sets them, each with its value or `None`
      where the node leaves it out. */
  function Entries(input: Inputs, start: Option<int>, end: Option<int>, tags: Option<seq<string>>): seq<(string, Value)> {
    [ ("start", Millis(start)),
      ("end", Millis(end)),
      ("duration", IfNumber(input.duration)),
      ("tid", IfTruthy(input.taskId)),
      ("description", IfTruthy(input.description)),
      ("billable", IfBool(input.billable)),
      ("tags", TagList(tags)) ]
  }

  /** The body object, given the start and end times and the parsed tags. */
  function Assemble(input: Inputs, start: Option<int>, end: Option<int>, tags: Option<seq<string>>): Object {
    Collect(Entries(input, start, end, tags))
  }

  /** `start` and `end` are sent exactly when there is a time for them, as that number. */
  lemma BodyTimes(input: Inputs, start: Option<int>, end: Option<int>, tags: Option<seq<string>>)
    ensures var b := Assemble(input, start, end, tags);
      && Field(b, "start") == (if start.Some? then Some(Num(start.value)) else None)
      && Field(b, "end") == (if end.Some? then Some(Num(end.value)) else None)
  {
    var entries := Entries(input, start, end, tags);
    CollectField(entries, 0);
    CollectField(entries, 1);
  }

  /** The duration whenever it is a number (0 included), the task id and the description
      only when truthy, and `billable` whenever it is a boolean (`false` included). */
  lemma BodyOptional(input: Inputs, start: Option<int>, end: Option<int>, tags: Option<seq<string>>)
    ensures var b := Assemble(input, start, end, tags);
      && Field(b, "duration") == (if input.duration.Some? && input.duration.value.Num? then input.duration else None)
      && Field(b, "tid") == (if Truthy(input.taskId) then input.taskId else None)
      && Field(b, "description") == (if Truthy(input.description) then input.description else None)
      && Field(b, "billable") == (if input.billable.Some? && input.billable.value.Bool? then input.billable else None)
  {
    var entries := Entries(input, start, end, tags);
    CollectField(entries, 2);
    CollectField(entries, 3);
    CollectField(entries, 4);
    CollectField(entries, 5);
  }

  /** The tags only when at least one is left after trimming, as an array of those strings. */
  lemma BodyTags(input: Inputs, start: Option<int>, end: Option<int>, tags: Option<seq<string>>)
    ensures var b := Assemble(input, start, end, tags);
      Field(b, "tags") ==
        (if tags.Some? && |tags.value| > 0
         then Some(Arr(seq(|tags.value|, i requires 0 <= i < |tags.value| => Str(tags.value[i]))))
         else None)
  {
    CollectField(Entries(input, start, end, tags), 6);
    if tags.Some? && |tags.value| > 0 {
      assert TagList(tags).value.items == seq(|tags.value|, i requires 0 <= i < |tags.value| => Str(tags.value[i]));
    }
  }

  /** Nothing outside the documented keys is ever sent. */
  lemma BodyKnownKeys(input: Inputs, start: Option<int>, end: Option<int>, tags: Option<seq<string>>, k: string)
    requires k !in BodyKeys
    ensures Field(Assemble(input, start, end, tags), k) == None
  {
    CollectAbsent(Entries(input, start, end, tags), k);
  }

  /** Unless START_NOW is `false` (left unset included) the entry starts now, whatever START
      says; with START_NOW `false` it starts at the time `toMs` reads from START, and has no
      `start` at all when START gives none. */
  lemma StartPrecedence(rt: Builtins, input: Inputs, now: int)
    requires Body(rt, input, now).Ok?
    ensures input.startNow != Some(Bool(false)) ==> Field(Body(rt, input, now).value, "start") == Some(Num(now))
    ensures input.startNow == Some(Bool(false)) ==>
      Field(Body(rt, input, now).value, "start") ==
        (if TimeMs(rt, input.start).Some? then Some(Num(TimeMs(rt, input.start).value)) else None)
  {
    BodyTimes(input, StartMs(rt, input, now), TimeMs(rt, input.end), ParseTags(input.tags).value);
  }

  /** A run with nothing but the token and the team starts an entry now, and sends only
      that. */
  lemma StartsNowByDefault(rt: Builtins, token: Value, teamId: Value, now: int)
    ensures Body(rt, Inputs(token, teamId, None, None, None, None, None, None, None, None), now) ==
      Ok(map["start" := Num(now)])
  {
    var input := Inputs(token, teamId, None, None, None, None, None, None, None, None);
    var b := Assemble(input, Some(now), None, None);
    BodyTimes(input, Some(now), None, None);
    BodyOptional(input, Some(now), None, None);
    BodyTags(input, Some(now), None, None);
    forall k | k !in BodyKeys ensures k !in b {
      BodyKnownKeys(input, Some(now), None, None, k);
    }
    assert b.Keys == {"start"};
    assert b == map["start" := Num(now)];
    assert TimeMs(rt, None) == None && ParseTags(None) == Ok(None);
  }

  /** The request the node sends: a POST with a JSON body to the team's time entries. */
  function BuildRequest(rt: Builtins, input: Inputs, now: int): (r: Result<Request>)
    ensures r.Throw? <==> Body(rt, input, now).Throw?
    ensures r.Ok? ==> r.value.verb == Post && r.value.body == Some(Body(rt, input, now).value)
    ensures r.Ok? ==> r.value.url == Root(IdInput(input.teamId))
    ensures r.Ok? ==> r.value.headers == JsonHeaders(StringOr(input.token))
  {
    var body :- Body(rt, input, now);
    Ok(Request(Post, Root(IdInput(input.teamId)), JsonHeaders(StringOr(input.token)), Some(body)))
  }

  /** Where the create node looks for the new entry's id, in order: the start, stop and
      update nodes' places with `time_entry_id` third. */
  const IdPaths: seq<seq<string>> := [["id"], ["timer_id"], ["time_entry_id"], ["data", "id"], ["time_entry", "id"]]

  /** The Time Entry ID output: `String` of the first probe hit, and "" when there is none or
      the data is not an object. */
  function EntryIdOf(rt: Builtins, data: Value): (r: string)
    ensures !IsObject(ParsedData(rt, data)) ==> r == ""
    ensures IsObject(ParsedData(rt, data)) && NoHit(ParsedData(rt, data), IdPaths) ==> r == ""
    ensures forall i | IsObject(ParsedData(rt, data)) && FirstHit(ParsedData(rt, data), IdPaths, i) ::
      r == ToStr(Probe(ParsedData(rt, data), IdPaths[i]).value)
  {
    ExtractId(rt, data, IdPaths, "")
  }

  /** A whole run, given the current time, the response and the time the run took: a
      TypeError from the tags fails it before any output is set; otherwise all five outputs
      are set, and the run fails afterwards exactly when the status is 400 or more. */
  function Execute(rt: Builtins, input: Inputs, now: int, res: Response, elapsed: int): (t: Trace)
    ensures BuildRequest(rt, input, now).Throw? ==>
      Failure(t) == Some(TrimNotAFunction) && forall n :: OutputOf(t, n) == None
    ensures BuildRequest(rt, input, now).Ok? ==>
      var url := Root(IdInput(input.teamId));
      && Failure(t) == (if res.status >= 400 then Some(HttpError(res.status, Post, url)) else None)
      && FailsLast(t)
      && OutputOf(t, StatusCode) == Some(NumberOut(res.status))
      && OutputOf(t, TimeEntryId) == Some(StringOut(EntryIdOf(rt, res.data)))
      && OutputOf(t, HeadersOut) == Some(MapOut(res.headers.GetOr(map[])))
      && OutputOf(t, BodyOut) == Some(StringOut(BodyText(res.data)))
      && OutputOf(t, RunTime) == Some(NumberOut(elapsed))
      && OutputOf(t, TaskId) == None
  {
    match BuildRequest(rt, input, now)
    case Throw(e) =>
      assert e == TrimNotAFunction;
      forall n ensures OutputOf([Raise(e)], n) == None {
        OutputOfOne(Raise(e), n);
      }
      [Raise(e)]
    case Ok(req) => Respond(res, Some((TimeEntryId, EntryIdOf(rt, res.data))), elapsed, Post, req.url)
  }

  /** A numeric tag input is not a string: `trim` is not a function on it, and the run fails
      before sending anything. */
  lemma NumericTagsThrow(rt: Builtins, input: Inputs, now: int, res: Response, elapsed: int)
    requires input.tags == Some(Num(5))
    ensures Failure(Execute(rt, input, now, res, elapsed)) == Some(TrimNotAFunction)
    ensures OutputOf(Execute(rt, input, now, res, elapsed), StatusCode) == None
  {
  }
}
