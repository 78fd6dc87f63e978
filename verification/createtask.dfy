/** The "ClickUp Create Task" node: `POST /list/{list_id}/task`, then the task id read out
    of the response. */
module CreateTask {
  import opened Wrappers
  import opened Text
  import opened Js
  import opened Coerce
  import opened Action
  import Uri

  /** The node's inputs as the host hands them over; `None` where one is not set. */
  datatype Inputs = Inputs(
    token: Value,
    listId: Value,
    name: Value,
    description: Value,
    status: Value,
    assignees: Value,
    due: Value,
    priority: Value,
    notifyAll: Value)

  /** The keys a create-task body can hold. */
  const BodyKeys: set<string> :=
    {"name", "notify_all", "description", "status", "assignees", "due_date", "due_date_time", "priority"}

  /** `${BASE}/list/${encodeURIComponent(listId)}/task`. */
  function Url(listId: string): (url: string)
    ensures url == Base + "/list/" + Uri.Encode(listId) + "/task"
  {
    Path3("list", Uri.Encode(listId), "task");
    Endpoint(["list", Uri.Encode(listId), "task"])
  }

  /** The URL names the list: its path is `list/{id}/task`, and the middle segment decodes
      to the list id. */
  lemma UrlNamesList(listId: string)
    ensures PathOf(Url(listId)) == Some(["list", Uri.Encode(listId), "task"])
    ensures Uri.Decode(PathOf(Url(listId)).value[1]) == Some(listId)
  {
    var segments := ["list", Uri.Encode(listId), "task"];
    EncodedSegment(listId);
    EndpointPath(segments);
    assert Url(listId) == Endpoint(segments);
  }

  /** The request body. Parsing the assignees and reading the due date are the steps that
      can throw (a TypeError on a truthy non-string); the rest is `Assemble`. */
  function Body(rt: Builtins, input: Inputs): (r: Result<Object>)
    ensures r.Throw? <==> TrimThrows(input.assignees) || TrimThrows(input.due)
    ensures r.Throw? ==> r.error == TrimNotAFunction
    ensures r.Ok? ==> r.value == Assemble(input, ParseIds(rt, input.assignees).value, DueMs(rt, input.due).value)
  {
    var assignees :- ParseIds(rt, input.assignees);
    var dueMs :- DueMs(rt, input.due);
    Ok(Assemble(input, assignees, dueMs))
  }

  /** The body's properties in the order the node sets them, each with its value or
      `None` where the node leaves it out. */
  function Entries(input: Inputs, assignees: Option<seq<int>>, dueMs: Option<int>): seq<(string, Value)> {
    [ ("name", Some(Str(IdInput(input.name)))),
      ("notify_all", Some(Coalesce(input.notifyAll, Bool(false)))),
      ("description", IfTruthy(input.description)),
      ("status", IfTruthy(input.status)),
      ("assignees", IdList(assignees)),
      ("due_date", Millis(dueMs)),
      ("due_date_time", DueDateTime(input.due, dueMs)),
      ("priority", Priority(input.priority)) ]
  }

  /** The body object, given the parsed assignees and the due time. */
  function Assemble(input: Inputs, assignees: Option<seq<int>>, dueMs: Option<int>): Object {
    Collect(Entries(input, assignees, dueMs))
  }

  /** The name is always sent, trimmed; `notify_all` is always sent, `false` when unset. */
  lemma BodyRequired(input: Inputs, assignees: Option<seq<int>>, dueMs: Option<int>)
    ensures Field(Assemble(input, assignees, dueMs), "name") == Some(Str(Trim(StringOr(input.name))))
    ensures Field(Assemble(input, assignees, dueMs), "notify_all") ==
      Some(if Nullish(input.notifyAll) then Bool(false) else input.notifyAll.value)
  {
    CollectField(Entries(input, assignees, dueMs), 0);
    CollectField(Entries(input, assignees, dueMs), 1);
  }

  /** The description and the status are sent only when truthy, and the priority only when
      it is one of the numbers 1 to 4; each as given. */
  lemma BodyOptional(input: Inputs, assignees: Option<seq<int>>, dueMs: Option<int>)
    ensures var b := Assemble(input, assignees, dueMs);
      && Field(b, "description") == (if Truthy(input.description) then input.description else None)
      && Field(b, "status") == (if Truthy(input.status) then input.status else None)
      && Field(b, "priority") ==
        (if input.priority in {Some(Num(1)), Some(Num(2)), Some(Num(3)), Some(Num(4))} then input.priority else None)
  {
    CollectField(Entries(input, assignees, dueMs), 2);
    CollectField(Entries(input, assignees, dueMs), 3);
    CollectField(Entries(input, assignees, dueMs), 7);
  }

  /** The assignees are sent only when the list yields at least one id, as the array of
      those ids. */
  lemma BodyAssignees(input: Inputs, assignees: Option<seq<int>>, dueMs: Option<int>)
    ensures Field(Assemble(input, assignees, dueMs), "assignees") ==
      if assignees.Some? && |assignees.value| > 0
      then Some(Arr(seq(|assignees.value|, i requires 0 <= i < |assignees.value| => Num(assignees.value[i]))))
      else None
  {
    CollectField(Entries(input, assignees, dueMs), 4);
    if assignees.Some? && |assignees.value| > 0 {
      assert IdList(assignees).value.items == seq(|assignees.value|, i requires 0 <= i < |assignees.value| => Num(assignees.value[i]));
    }
  }

  /** `due_date` is sent whenever the due input gives a time, and `due_date_time: true`
      beside it exactly when that input is not a bare run of digits. */
  lemma BodyDue(input: Inputs, assignees: Option<seq<int>>, dueMs: Option<int>)
    requires dueMs.Some? ==> NonBlankString(input.due)
    ensures var b := Assemble(input, assignees, dueMs);
      && Field(b, "due_date") == (if dueMs.Some? then Some(Num(dueMs.value)) else None)
      && Field(b, "due_date_time") ==
        (if dueMs.Some? && !AllDigits(input.due.value.s) then Some(Bool(true)) else None)
  {
    CollectField(Entries(input, assignees, dueMs), 5);
    CollectField(Entries(input, assignees, dueMs), 6);
  }

  /** Nothing outside the documented keys is ever sent. */
  lemma BodyKnownKeys(input: Inputs, assignees: Option<seq<int>>, dueMs: Option<int>, k: string)
    requires k !in BodyKeys
    ensures Field(Assemble(input, assignees, dueMs), k) == None
  {
    CollectAbsent(Entries(input, assignees, dueMs), k);
  }

  /** The request the node sends: a POST with a JSON body to the list's task collection. */
  function BuildRequest(rt: Builtins, input: Inputs): (r: Result<Request>)
    ensures r.Throw? <==> Body(rt, input).Throw?
    ensures r.Ok? ==> r.value.verb == Post && r.value.body == Some(Body(rt, input).value)
    ensures r.Ok? ==> r.value.url == Base + "/list/" + Uri.Encode(Trim(StringOr(input.listId))) + "/task"
    ensures r.Ok? ==> r.value.headers == JsonHeaders(StringOr(input.token))
  {
    var body :- Body(rt, input);
    Ok(Request(Post, Url(IdInput(input.listId)), JsonHeaders(StringOr(input.token)), Some(body)))
  }

  /** Where the node looks for the new task's id, in order. */
  const IdPaths: seq<seq<string>> := [["id"], ["task_id"], ["task", "id"], ["data", "id"]]

  /** The Task ID output: `String` of the first of `id`, `task_id`, `task.id`, `data.id` that
      is neither `null` nor `undefined`, and "" when there is none or the data is not an
      object. */
  function TaskIdOf(rt: Builtins, data: Value): (r: string)
    ensures !IsObject(ParsedData(rt, data)) ==> r == ""
    ensures IsObject(ParsedData(rt, data)) && NoHit(ParsedData(rt, data), IdPaths) ==> r == ""
    ensures forall i | IsObject(ParsedData(rt, data)) && FirstHit(ParsedData(rt, data), IdPaths, i) ::
      r == ToStr(Probe(ParsedData(rt, data), IdPaths[i]).value)
  {
    ExtractId(rt, data, IdPaths, "")
  }

  /** A whole run, given the response the transport returns for the request and the time
      the run took: a TypeError while building the body fails the run before any output is
      set; otherwise all five outputs are set, and the run fails afterwards exactly when the
      status is 400 or more. */
  function Execute(rt: Builtins, input: Inputs, res: Response, elapsed: int): (t: Trace)
    ensures BuildRequest(rt, input).Throw? ==>
      Failure(t) == Some(TrimNotAFunction) && forall n :: OutputOf(t, n) == None
    ensures BuildRequest(rt, input).Ok? ==>
      var url := Base + "/list/" + Uri.Encode(Trim(StringOr(input.listId))) + "/task";
      && Failure(t) == (if res.status >= 400 then Some(HttpError(res.status, Post, url)) else None)
      && FailsLast(t)
      && OutputOf(t, StatusCode) == Some(NumberOut(res.status))
      && OutputOf(t, TaskId) == Some(StringOut(TaskIdOf(rt, res.data)))
      && OutputOf(t, HeadersOut) == Some(MapOut(res.headers.GetOr(map[])))
      && OutputOf(t, BodyOut) == Some(StringOut(BodyText(res.data)))
      && OutputOf(t, RunTime) == Some(NumberOut(elapsed))
      && OutputOf(t, TimeEntryId) == None
  {
    match BuildRequest(rt, input)
    case Throw(e) =>
      assert e == TrimNotAFunction;
      forall n ensures OutputOf([Raise(e)], n) == None {
        OutputOfOne(Raise(e), n);
      }
      [Raise(e)]
    case Ok(req) => Respond(res, Some((TaskId, TaskIdOf(rt, res.data))), elapsed, Post, req.url)
  }

  /** A response `{"id": "9hcxq"}` gives the Task ID "9hcxq", whether it arrives parsed or
      as text that parses to it. */
  lemma TaskIdOfIdField(rt: Builtins, text: string)
    requires rt.parseJson(text) == Some(Obj([("id", Str("9hcxq"))]))
    ensures TaskIdOf(rt, Some(Obj([("id", Str("9hcxq"))]))) == "9hcxq"
    ensures TaskIdOf(rt, Some(Str(text))) == "9hcxq"
  {
    var v := Some(Obj([("id", Str("9hcxq"))]));
    assert FirstHit(v, IdPaths, 0) by {
      assert Probe(v, IdPaths[0]) == Some(Str("9hcxq"));
    }
  }

  /** A `null` id is stepped over, and a numeric task id is printed in decimal. */
  lemma TaskIdSkipsNull(rt: Builtins)
    ensures TaskIdOf(rt, Some(Obj([("id", Null), ("task", Obj([("id", Num(42))]))]))) == "42"
  {
    var v := Some(Obj([("id", Null), ("task", Obj([("id", Num(42))]))]));
    assert Probe(v, IdPaths[0]) == Some(Null);
    assert Probe(v, IdPaths[1]) == None;
    assert Probe(v, IdPaths[2]) == Some(Num(42));
    assert FirstHit(v, IdPaths, 2);
    assert IntToDecimal(42) == "42";
  }

  /** Text that does not parse leaves the Task ID empty. */
  lemma TaskIdOfUnparsable(rt: Builtins, text: string)
    requires rt.parseJson(text).None?
    ensures TaskIdOf(rt, Some(Str(text))) == ""
  {
  }

  /** `Number(" 123")` is 123: the due input " 123" gives the time 123. */
  lemma PaddedDueMs(rt: Builtins)
    requires Faithful(rt)
    ensures DueMs(rt, Some(Str(" 123"))) == Ok(Some(123))
  {
    assert " 123"[1..] == "123";
    TrimUnpadded("123");
    assert DecimalValue("123") == 123 by {
      assert "123"[..2] == "12" && "12"[..1] == "1" && "1"[..0] == "";
    }
    NumberOfDigits(rt, " 123");
  }

  /** A due input " 123" passes as the number 123, yet the digit-run test sees the padding,
      so `due_date_time` is set beside it. */
  lemma PaddedNumericDue(rt: Builtins, input: Inputs, assignees: Option<seq<int>>)
    requires Faithful(rt) && input.due == Some(Str(" 123"))
    ensures DueMs(rt, input.due) == Ok(Some(123))
    ensures Field(Assemble(input, assignees, Some(123)), "due_date") == Some(Num(123))
    ensures Field(Assemble(input, assignees, Some(123)), "due_date_time") == Some(Bool(true))
  {
    PaddedDueMs(rt);
    assert !AllDigits(" 123") by { assert !IsDigit(" 123"[0]); }
    BodyDue(input, assignees, Some(123));
  }

  /** The smallest run: a token, a list and a name only. */
  function Minimal(): Inputs {
    Inputs(Some(Str("pk_1")), Some(Str("901")), Some(Str("Report")), None, None, None, None, None, None)
  }

  /** The minimal run sends `{name: "Report", notify_all: false}` to list 901's tasks. */
  lemma MinimalRequest(rt: Builtins)
    ensures BuildRequest(rt, Minimal()).Ok?
    ensures BuildRequest(rt, Minimal()).value.body == Some(map["name" := Str("Report"), "notify_all" := Bool(false)])
    ensures BuildRequest(rt, Minimal()).value.url == Url("901")
  {
    TrimUnpadded("901");
    MinimalBody();
  }

  /** A numeric list id goes into the URL as it is. */
  lemma NumericListUrl()
    ensures Url("901") == Base + "/list/901/task"
  {
    Uri.EncodeUnreserved("901");
  }

  lemma MinimalBody()
    ensures Assemble(Minimal(), None, None) == map["name" := Str("Report"), "notify_all" := Bool(false)]
  {
    var input := Minimal();
    var b := Assemble(input, None, None);
    TrimUnpadded("Report");
    BodyRequired(input, None, None);
    BodyOptional(input, None, None);
    BodyAssignees(input, None, None);
    BodyDue(input, None, None);
    forall k | k !in BodyKeys ensures k !in b {
      BodyKnownKeys(input, None, None, k);
    }
    assert b.Keys == {"name", "notify_all"};
  }

  /** On a 404 the minimal run fails with the status, the verb and the URL, after setting
      the status output. */
  lemma MinimalRunNotFound(rt: Builtins, res: Response, elapsed: int)
    requires res.status == 404
    ensures Failure(Execute(rt, Minimal(), res, elapsed)) ==
      Some(HttpError(404, Post, Base + "/list/901/task"))
    ensures OutputOf(Execute(rt, Minimal(), res, elapsed), StatusCode) == Some(NumberOut(404))
  {
    MinimalRequest(rt);
    NumericListUrl();
  }
}
