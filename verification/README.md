# ClickUp action nodes, modelled in Dafny

The repository provides eight workflow nodes. Each one makes a single call to the ClickUp
REST API (`https://api.clickup.com/api/v2`):

- **Create Task**: `POST /list/{list_id}/task`.
- **Update Task**: `PUT /task/{task_id}`.
- **Delete Task**: `DELETE /task/{task_id}`.
- **Create Time Entry**: `POST /team/{team_id}/time_entries`.
- **Start Time Entry**: `POST /team/{team_id}/time_entries/start`.
- **Stop Time Entry**: `POST /team/{team_id}/time_entries/stop`.
- **Update Time Entry**: `PUT /team/{team_id}/time_entries/{timer_id}`.
- **Delete Time Entry**: `DELETE /team/{team_id}/time_entries/{timer_id}`.

A node does three things in order:

1. It reads its inputs and builds a request: URL, headers and JSON body. Building can throw a `TypeError`.
2. It hands the request to the HTTP transport. Every status counts as a response.
3. It sets its outputs, then throws `HTTP <status> <METHOD> <url>` when the status is 400 or more. The outputs are the status, an entity id for the create, start, stop and time-entry update/delete nodes, the headers, the body as text, and the run time.

The model keeps this structure.

- **JavaScript values.** `Js.Json` models a JavaScript value, and `Js.Value = Option<Json>` uses `None` for `undefined`. This keeps the source's tests exact: truthiness, `??`, `typeof … === "boolean"`, and `[1,2,3,4].includes`. A request body is a `Js.Object`, built by assigning properties in the node's order (`Js.Collect`).
- **String primitives.** `Text` models `trim` (the ECMAScript white-space set), `split`, `join` and the regular expression `^\d+$`. `Uri` models `encodeURIComponent`, with UTF-8 percent-encoding, together with a decoder.
- **Shared input coercions.** `Coerce` holds:
  - the two list parsers (`parseAssignees`/`parseIds` and `parseTags`);
  - the two variants of `toMs`;
  - the priority whitelist;
  - the body fields that are sent only when present.
- **Around the call.** `Action` models the request, the response and the id probing. A run is a trace of effects (`SetOutput`, then possibly `Raise`), so "the outputs are set, then the node fails" is a property of the order of the trace.
- **One module per node.** Each node has its own module (`CreateTask`, `UpdateTask`, …, `DeleteTimeEntry`). `TimeEntry` holds what the five time-entry nodes share.
- **Proved facts.** The model states each node's body field by field and each URL's path. Round trips are proved for the list parsers and the URL encoding. The relations between nodes are proved too, for example that start and update time-entry bodies equal a create body with `START_NOW` false.

`Number`, `Date.parse` and `JSON.parse` come in as a `Js.Builtins` record. `Js.Faithful` states the two facts about `Number` the proofs rely on: a blank string reads as 0, and a digit run reads as its decimal value when that value is at most `Number.MAX_SAFE_INTEGER`. Above that bound nothing is assumed, since `Number` rounds there. `Js.DecimalOnly` is one record that meets it. The current time and the elapsed run time are parameters.

## Model

| member | source | states |
|---|---|---|
| Text.Trim | lib/nodes/clickup/ClickUpCreateTask.ts:84-86 | `trim` gives "" exactly when the string is all white space; otherwise the result neither starts nor ends with white space |
| Text.TrimRemovesEnds | lib/nodes/clickup/ClickUpCreateTask.ts:84-86 | `trim` removes only a white-space prefix and a white-space suffix; the result is the middle of the input, unchanged |
| Text.TrimOffset | lib/nodes/clickup/ClickUpUpdateTask.ts:86-87 | returns the offset at which the trimmed string sits inside the input, with only white space around it |
| Text.IsJsSpace | lib/nodes/clickup/ClickUpCreateTask.ts:85 | space, tab, line feed and carriage return are white space for `trim`, and no white space is a digit, a comma or a minus sign |
| Text.Split | lib/nodes/clickup/ClickUpCreateTimeEntry.ts:84 | `split(",")` returns at least one piece, no piece holds a comma, and joining the pieces with commas gives the input back |
| Text.SplitJoin | lib/nodes/clickup/ClickUpCreateTimeEntry.ts:84 | splitting undoes joining whenever no piece holds the separator |
| Text.SplitConcat | lib/nodes/clickup/ClickUpCreateTask.ts:71 | splitting at one separator splits the two sides independently |
| Text.JoinSnoc | lib/nodes/clickup/ClickUpStartTimeEntry.ts:90 | joining one more piece appends the separator and that piece, which is how a URL one path segment deeper is formed |
| Text.NatToDecimal | lib/nodes/clickup/ClickUpCreateTask.ts:126-131 | `String(n)` of a natural number is a digit run with no leading zero whose decimal value is `n` |
| Text.AllDigits | lib/nodes/clickup/ClickUpCreateTask.ts:105 | a text that passes `^\d+$` is non-empty, has no white space at either end and no comma |
| Uri.Encode | lib/nodes/clickup/ClickUpCreateTask.ts:94 | `encodeURIComponent` output holds only unreserved characters and `%` |
| Uri.DecodeEncode | lib/nodes/clickup/ClickUpCreateTask.ts:94 | decoding an encoded identifier gives back the identifier, so encoding is injective |
| Uri.NoSlash | lib/nodes/clickup/ClickUpUpdateTimeEntry.ts:99 | an encoded identifier contains no `/`, so it stays one path segment |
| Uri.EncodeUnreserved | lib/nodes/clickup/ClickUpDeleteTask.ts:59 | an identifier of unreserved characters, such as a numeric id, is put into the URL unchanged |
| Js.Include | lib/nodes/clickup/ClickUpCreateTimeEntry.ts:111-118 | a conditional property assignment sets that property when the value is present and changes no other property |
| Js.CollectField | lib/nodes/clickup/ClickUpCreateTimeEntry.ts:106-118 | after the node's sequence of conditional assignments, a property set once holds the value of its own step |
| Js.CollectAbsent | lib/nodes/clickup/ClickUpCreateTimeEntry.ts:106-118 | a property that no step assigns is absent from the body |
| Js.DecimalOnlyIsFaithful | lib/nodes/clickup/ClickUpCreateTask.ts:75 | some `Number` meets the assumed facts (blank reads as 0, a digit run as its value), so lemmas that require them are not vacuous |
| Js.Quote | lib/nodes/clickup/ClickUpCreateTask.ts:140 | `JSON.stringify` of a string is wrapped in double quotes and contains no raw control character |
| Js.Stringify | lib/nodes/clickup/ClickUpCreateTask.ts:140 | `JSON.stringify` gives non-empty text without raw control characters; its first character tells a string, an array and an object apart; a string is its quoted literal and a number its decimal numeral |
| Js.ToStr | lib/nodes/clickup/ClickUpCreateTask.ts:127-131 | `String(v)` keeps a string as it is and prints a number as its canonical decimal: no leading zero, a minus sign before a negative one, and the digits read back as the number |
| Js.Truthy | lib/nodes/clickup/ClickUpCreateTask.ts:97 | a value is truthy exactly when it is not `undefined`, `null`, `false`, `0` or `""` |
| Coerce.FiniteNumbersMembers | lib/nodes/clickup/ClickUpCreateTask.ts:71 | a number is among the parsed ids exactly when some trimmed token reads as it |
| Coerce.FiniteNumbersAppend | lib/nodes/clickup/ClickUpCreateTask.ts:71 | the numbers of concatenated token lists are those of each list in turn, so kept numbers keep their tokens' order and repeats |
| Coerce.FiniteNumbers | lib/nodes/clickup/ClickUpCreateTask.ts:71 | the filter keeps at most one number per token, and keeps every token exactly when each reads as a finite number |
| Coerce.ParseIds | lib/nodes/clickup/ClickUpCreateTask.ts:69-72 | `parseAssignees`/`parseIds`: throws exactly on a truthy non-string, gives no list for a falsy or blank input, else the finite numbers of the comma-separated tokens |
| Coerce.IdInput | lib/nodes/clickup/ClickUpCreateTask.ts:85 | an identifier is empty exactly when the input is missing or prints as white space; otherwise it has no white space at either end and is the middle of the input |
| Coerce.ParseIdsOfJoin | lib/nodes/clickup/ClickUpUpdateTask.ts:71-74 | parsing the comma-joined numerals of a non-empty list of ids reads each numeral on its own; when every id is a safe integer and `Number` reads safe integers exactly, it gives those ids back, in order |
| Coerce.EmptyTokenIsZero | lib/nodes/clickup/ClickUpUpdateTask.ts:73 | `"1,,2"` parses to `[1, 0, 2]` because an empty token reads as 0 |
| Coerce.NonEmptyTrimmed | lib/nodes/clickup/ClickUpCreateTimeEntry.ts:84 | every kept tag is non-empty, trimmed and free of commas, and no more tags are kept than pieces given |
| Coerce.NonEmptyTrimmedIsEmpty | lib/nodes/clickup/ClickUpStartTimeEntry.ts:76 | no tag survives exactly when every piece is blank |
| Coerce.NonEmptyTrimmedMembers | lib/nodes/clickup/ClickUpCreateTimeEntry.ts:84 | a tag is kept exactly when it is the non-empty trim of some piece |
| Coerce.NonEmptyTrimmedAppend | lib/nodes/clickup/ClickUpStartTimeEntry.ts:76 | the tags keep the order of the pieces: the pieces of `a` then `b` give the tags of `a` then those of `b` |
| Coerce.ParseTags | lib/nodes/clickup/ClickUpCreateTimeEntry.ts:82-85 | throws exactly on a non-nullish non-string, gives no list for nullish or blank input, else canonical tags only |
| Coerce.ParseTagsMembers | lib/nodes/clickup/ClickUpCreateTimeEntry.ts:82-85 | for a string with something besides white space, the tags are exactly the non-empty trims of its comma-separated pieces |
| Coerce.ParseTagsOfPadded | lib/nodes/clickup/ClickUpUpdateTimeEntry.ts:80-83 | `" a , ,b"` gives the tags `["a", "b"]` |
| Coerce.ParseTagsOfJoin | lib/nodes/clickup/ClickUpUpdateTimeEntry.ts:80-83 | comma-joining a non-empty list of canonical tags and parsing it gives the list back |
| Coerce.DueMs | lib/nodes/clickup/ClickUpCreateTask.ts:73-79 | task `toMs`: throws exactly on a truthy non-string; a non-blank string is read by `Number` when finite, else by `Date.parse`, both on the untrimmed text |
| Coerce.TimeMs | lib/nodes/clickup/ClickUpCreateTimeEntry.ts:72-81 | time-entry `toMs`: never throws; nullish and blank give nothing; a number is kept; other values are trimmed and read by `Number`, else `Date.parse` |
| Coerce.DueMsOfDigits | lib/nodes/clickup/ClickUpUpdateTask.ts:75-81 | a digit-run due date never throws and is read by `Number` first; a safe integer is that many milliseconds |
| Coerce.TimeMsOfDigits | lib/nodes/clickup/ClickUpStopTimeEntry.ts:56-65 | for the time-entry nodes a digit run, padded or not, is read by `Number` first, and a safe integer is that many milliseconds |
| Coerce.ToMsVariantsAgree | lib/nodes/clickup/ClickUpUpdateTimeEntry.ts:70-79 | on a string without surrounding white space the task and time-entry variants of `toMs` agree |
| Coerce.Priority | lib/nodes/clickup/ClickUpCreateTask.ts:107 | the priority is sent exactly when it is one of the numbers 1 to 4, and as given |
| Coerce.IdList | lib/nodes/clickup/ClickUpCreateTask.ts:100 | the assignee array is sent only when non-empty, element for element the parsed ids |
| Coerce.TagList | lib/nodes/clickup/ClickUpCreateTimeEntry.ts:117-118 | the tag array is sent only when non-empty, element for element the parsed tags |
| Coerce.DueDateTime | lib/nodes/clickup/ClickUpCreateTask.ts:105 | for due text, `due_date_time: true` is set exactly when a due time was read and some character of the text is not a digit; a missing or empty due, or a non-negative number, never sets it |
| Action.JsonHeaders | lib/nodes/clickup/ClickUpCreateTask.ts:112 | a request with a body sends the token verbatim as `Authorization`, plus JSON `Content-Type` and `Accept` |
| Action.PlainHeaders | lib/nodes/clickup/ClickUpDeleteTask.ts:64 | a delete sends `Authorization` and `Accept` and no `Content-Type` |
| Action.EndpointPath | lib/nodes/clickup/ClickUpUpdateTask.ts:99 | the path segments of an API URL can be read back out of it |
| Action.EndpointInjective | lib/nodes/clickup/ClickUpDeleteTimeEntry.ts:63 | different segment lists give different URLs |
| Action.EndpointSnoc | lib/nodes/clickup/ClickUpStopTimeEntry.ts:74 | a URL one segment deeper is the shorter URL, a slash and that segment |
| Action.OutputOfAppend | lib/nodes/clickup/ClickUpCreateTask.ts:137-141 | in a trace `a` then `b`, an output's value is the last one `b` sets, else the one `a` left |
| Action.FailureAppend | lib/nodes/clickup/ClickUpCreateTask.ts:137-143 | a trace `a` then `b` fails with `a`'s error if `a` fails, else with `b`'s |
| Action.NoFailure | lib/nodes/clickup/ClickUpCreateTask.ts:137-141 | a trace that only sets outputs does not fail |
| Action.HttpError | lib/nodes/clickup/ClickUpUpdateTask.ts:133 | the error message is `HTTP <status> `, then the method name, a space and the request URL, with nothing else |
| Action.ParsedData | lib/nodes/clickup/ClickUpCreateTask.ts:119-123 | non-text data is taken as it is; text becomes the parse result when it parses and `null` exactly when parsing throws |
| Action.ProbeChain | lib/nodes/clickup/ClickUpCreateTask.ts:127-132 | a `??` chain gives the value of the first probe that is not nullish, and the fallback when every probe is nullish |
| Action.ExtractId | lib/nodes/clickup/ClickUpCreateTask.ts:116-134 | the id is `String` of the first probe hit in an object response; otherwise, or when nothing is hit, it is the fallback |
| Action.BodyText | lib/nodes/clickup/ClickUpCreateTask.ts:140 | text data is echoed as it came; missing data reads `""` (two quote characters); other data is its JSON text |
| Action.Respond | lib/nodes/clickup/ClickUpCreateTask.ts:137-143 | the status, id, headers (`{}` when the response has none), body and run-time outputs get their values; the run fails exactly when status ≥ 400, with the HTTP error, and only as the last effect |
| Action.OutputOfOne | lib/nodes/clickup/ClickUpDeleteTask.ts:68-73 | a one-effect trace sets only the output named in that effect |
| CreateTask.Url | lib/nodes/clickup/ClickUpCreateTask.ts:94 | the URL is the API root, `/list/`, the encoded list id and `/task` |
| CreateTask.UrlNamesList | lib/nodes/clickup/ClickUpCreateTask.ts:94 | the URL's path is `list/{id}/task`, and its middle segment decodes to the trimmed list id |
| CreateTask.Body | lib/nodes/clickup/ClickUpCreateTask.ts:96-107 | building the body throws exactly when the assignees or the due input is a truthy non-string, with the `trim` TypeError |
| CreateTask.BodyRequired | lib/nodes/clickup/ClickUpCreateTask.ts:86 | `name` is always sent, trimmed; `notify_all` is always sent, `false` when unset |
| CreateTask.BodyOptional | lib/nodes/clickup/ClickUpCreateTask.ts:97-98 | description and status are sent only when truthy, priority only for 1 to 4 |
| CreateTask.BodyAssignees | lib/nodes/clickup/ClickUpCreateTask.ts:99-100 | `assignees` is sent exactly when at least one id was parsed, as the array of those ids |
| CreateTask.BodyDue | lib/nodes/clickup/ClickUpCreateTask.ts:101-106 | `due_date` is sent whenever a time was read, and `due_date_time` beside it exactly when the due text is not a digit run |
| CreateTask.BodyKnownKeys | lib/nodes/clickup/ClickUpCreateTask.ts:96-107 | no property outside the eight documented keys is sent |
| CreateTask.BuildRequest | lib/nodes/clickup/ClickUpCreateTask.ts:109-115 | a POST of the body to the list's tasks with JSON headers, failing exactly when the body fails |
| CreateTask.TaskIdOf | lib/nodes/clickup/ClickUpCreateTask.ts:116-134 | Task ID is the first non-nullish of `id`, `task_id`, `task.id`, `data.id`, as a string; "" otherwise |
| CreateTask.Execute | lib/nodes/clickup/ClickUpCreateTask.ts:81-143 | a body TypeError fails the run with no output set; otherwise every output is set and the run fails afterwards exactly on an error status |
| CreateTask.TaskIdOfIdField | lib/nodes/clickup/ClickUpCreateTask.ts:126 | `{"id":"9hcxq"}`, parsed or as text, gives the Task ID `9hcxq` |
| CreateTask.TaskIdSkipsNull | lib/nodes/clickup/ClickUpCreateTask.ts:127-129 | a `null` id is skipped in favour of `task.id`, and a numeric id is printed in decimal |
| CreateTask.TaskIdOfUnparsable | lib/nodes/clickup/ClickUpCreateTask.ts:121-123 | text that does not parse gives an empty Task ID instead of failing |
| CreateTask.PaddedDueMs | lib/nodes/clickup/ClickUpCreateTask.ts:75-76 | the due text ` 123` reads as 123 because `Number` ignores the padding |
| CreateTask.PaddedNumericDue | lib/nodes/clickup/ClickUpCreateTask.ts:101-106 | the due text ` 123` sends `due_date: 123` and also `due_date_time: true`, since the digit test sees the padding |
| CreateTask.MinimalRequest | lib/nodes/clickup/ClickUpCreateTask.ts:84-115 | token, list `901` and name `Report` alone send `{name: "Report", notify_all: false}` to list 901 |
| CreateTask.NumericListUrl | lib/nodes/clickup/ClickUpCreateTask.ts:94 | a numeric list id appears in the URL unchanged |
| CreateTask.MinimalBody | lib/nodes/clickup/ClickUpCreateTask.ts:96-107 | with no optional inputs the body holds exactly `name` and `notify_all` |
| CreateTask.MinimalRunNotFound | lib/nodes/clickup/ClickUpCreateTask.ts:143 | a 404 fails the minimal run with `HTTP 404 POST` and the list URL, after the status output is set |
| UpdateTask.Url | lib/nodes/clickup/ClickUpUpdateTask.ts:99 | the URL is the API root, `/task/` and the encoded task id |
| UpdateTask.UrlNamesTask | lib/nodes/clickup/ClickUpUpdateTask.ts:99 | the URL's path is `task/{id}`, and its last segment decodes to the trimmed task id |
| UpdateTask.Body | lib/nodes/clickup/ClickUpUpdateTask.ts:101-118 | building the body throws exactly when the due input or either assignee list is a truthy non-string |
| UpdateTask.BodyTexts | lib/nodes/clickup/ClickUpUpdateTask.ts:102-104 | name, description and status are sent only when truthy, as given |
| UpdateTask.BodyFlags | lib/nodes/clickup/ClickUpUpdateTask.ts:101-118 | `notify_all` is always sent; `priority` only for 1 to 4; `archived` only when a boolean |
| UpdateTask.BodyAssignees | lib/nodes/clickup/ClickUpUpdateTask.ts:113-116 | `add_assignees` and `remove_assignees` are sent only when non-empty, each as its parsed ids |
| UpdateTask.BodyDue | lib/nodes/clickup/ClickUpUpdateTask.ts:107-111 | `due_date` whenever a time was read; `due_date_time` beside it exactly when the due text is not a digit run |
| UpdateTask.BodyKnownKeys | lib/nodes/clickup/ClickUpUpdateTask.ts:101-118 | no property outside the ten documented keys is sent |
| UpdateTask.NothingToUpdate | lib/nodes/clickup/ClickUpUpdateTask.ts:101 | an update that sets nothing sends exactly `{notify_all: false}` |
| UpdateTask.BuildRequest | lib/nodes/clickup/ClickUpUpdateTask.ts:120-126 | a PUT of the body to the task with JSON headers, failing exactly when the body fails |
| UpdateTask.Execute | lib/nodes/clickup/ClickUpUpdateTask.ts:83-133 | a body TypeError fails the run with no output set; otherwise the four common outputs are set, no id output, then failure exactly on an error status |
| DeleteTask.BuildRequest | lib/nodes/clickup/ClickUpDeleteTask.ts:56-66 | a DELETE without body or `Content-Type` to the API root, `/task/` and the encoded trimmed task id |
| DeleteTask.SameResourceAsUpdate | lib/nodes/clickup/ClickUpDeleteTask.ts:59 | deleting a task addresses the URL that updating it would |
| DeleteTask.Execute | lib/nodes/clickup/ClickUpDeleteTask.ts:53-73 | building never fails; the four common outputs are set and the run fails afterwards exactly on an error status |
| DeleteTask.EmptyResponse | lib/nodes/clickup/ClickUpDeleteTask.ts:70 | a 204 without data gives the Body output `""`, an empty text body gives the empty Body output, and neither fails |
| TimeEntry.RootIsTemplate | lib/nodes/clickup/ClickUpCreateTimeEntry.ts:103 | the time-entry root is the API root, `/team/`, the encoded team id and `/time_entries` |
| TimeEntry.RootNamesTeam | lib/nodes/clickup/ClickUpCreateTimeEntry.ts:103 | the root's path is `team/{id}/time_entries`, and its second segment decodes to the team id |
| TimeEntry.BelowRootNamesTeam | lib/nodes/clickup/ClickUpUpdateTimeEntry.ts:99 | a URL one segment below the root still names the team, and ends with that segment |
| TimeEntry.EntryId | lib/nodes/clickup/ClickUpStartTimeEntry.ts:109-114 | Time Entry ID is the first non-nullish of `id`, `timer_id`, `data.id`, `time_entry.id`, as a string; else the node's fallback |
| CreateTimeEntry.Body | lib/nodes/clickup/ClickUpCreateTimeEntry.ts:106-118 | building the body throws exactly when TAGS is a non-nullish non-string; otherwise the start comes from `START_NOW` or START |
| CreateTimeEntry.BodyTimes | lib/nodes/clickup/ClickUpCreateTimeEntry.ts:111-112 | `start` and `end` are sent exactly when a time is known for them |
| CreateTimeEntry.BodyOptional | lib/nodes/clickup/ClickUpCreateTimeEntry.ts:113-116 | duration when a number, `tid` and description when truthy, billable when a boolean |
| CreateTimeEntry.BodyTags | lib/nodes/clickup/ClickUpCreateTimeEntry.ts:117-118 | `tags` is sent only when at least one tag survives parsing |
| CreateTimeEntry.BodyKnownKeys | lib/nodes/clickup/ClickUpCreateTimeEntry.ts:106-118 | no property outside the seven documented keys is sent |
| CreateTimeEntry.StartMs | lib/nodes/clickup/ClickUpCreateTimeEntry.ts:108 | the start is the current time unless `START_NOW` is exactly `false`, and then it is what `toMs` reads from START; only then can the entry lack a start |
| CreateTimeEntry.StartPrecedence | lib/nodes/clickup/ClickUpCreateTimeEntry.ts:108 | unless `START_NOW` is exactly `false`, `start` is the current time whatever START says; with `false` it is START read by `toMs` |
| CreateTimeEntry.StartsNowByDefault | lib/nodes/clickup/ClickUpCreateTimeEntry.ts:106-118 | with no optional inputs the body is exactly `{start: now}` |
| CreateTimeEntry.BuildRequest | lib/nodes/clickup/ClickUpCreateTimeEntry.ts:121-127 | a POST of the body to the team's time entries with JSON headers, failing exactly when the body fails |
| CreateTimeEntry.EntryIdOf | lib/nodes/clickup/ClickUpCreateTimeEntry.ts:130-142 | Time Entry ID is the first non-nullish of `id`, `timer_id`, `time_entry_id`, `data.id`, `time_entry.id`; "" otherwise |
| CreateTimeEntry.Execute | lib/nodes/clickup/ClickUpCreateTimeEntry.ts:87-151 | a tags TypeError fails the run with no output set; otherwise every output is set and the run fails afterwards exactly on an error status |
| CreateTimeEntry.NumericTagsThrow | lib/nodes/clickup/ClickUpCreateTimeEntry.ts:83 | a numeric TAGS input makes the node throw the `trim` TypeError before any request |
| StartTimeEntry.UrlNamesTeam | lib/nodes/clickup/ClickUpStartTimeEntry.ts:90 | the URL's path is `team/{id}/time_entries/start`, names the team, and is never any team's create URL |
| StartTimeEntry.Body | lib/nodes/clickup/ClickUpStartTimeEntry.ts:92-99 | building the body throws exactly when TAGS is a non-nullish non-string |
| StartTimeEntry.BodyFields | lib/nodes/clickup/ClickUpStartTimeEntry.ts:94-98 | `start` when START gives a time, `tid` and description when truthy, billable when a boolean, tags when any |
| StartTimeEntry.BodyKnownKeys | lib/nodes/clickup/ClickUpStartTimeEntry.ts:92-99 | only `start`, `tid`, `description`, `billable` and `tags` can be sent, never `end` or `duration` |
| StartTimeEntry.BodyAsCreate | lib/nodes/clickup/ClickUpStartTimeEntry.ts:92-99 | the start body equals the create body for the same fields with `START_NOW` false and no end or duration, so the current time is never used |
| StartTimeEntry.BuildRequest | lib/nodes/clickup/ClickUpStartTimeEntry.ts:101-107 | a POST of the body to the team's timer start with JSON headers, failing exactly when the body fails |
| StartTimeEntry.TimeEntryIdOnlyOnCreate | lib/nodes/clickup/ClickUpStartTimeEntry.ts:109-114 | a response with only `time_entry_id` gives an id on create but an empty one on start |
| StartTimeEntry.Execute | lib/nodes/clickup/ClickUpStartTimeEntry.ts:79-122 | a tags TypeError fails the run with no output set; otherwise every output is set and the run fails afterwards exactly on an error status |
| StopTimeEntry.UrlNamesTeam | lib/nodes/clickup/ClickUpStopTimeEntry.ts:74 | the URL's path is `team/{id}/time_entries/stop`, names the team, and never equals any start URL |
| StopTimeEntry.Body | lib/nodes/clickup/ClickUpStopTimeEntry.ts:76-78 | the body holds `end` exactly when END gives a time, and nothing else |
| StopTimeEntry.StopsNowWithoutEnd | lib/nodes/clickup/ClickUpStopTimeEntry.ts:76-78 | without END the body is the empty object |
| StopTimeEntry.BuildRequest | lib/nodes/clickup/ClickUpStopTimeEntry.ts:80-86 | a POST of the body to the team's timer stop with JSON headers; it cannot fail |
| StopTimeEntry.Execute | lib/nodes/clickup/ClickUpStopTimeEntry.ts:67-101 | every output is set, the Time Entry ID read as on start, then failure exactly on an error status |
| StopTimeEntry.EntryIdOfData | lib/nodes/clickup/ClickUpStopTimeEntry.ts:88-93 | `{"data":{"id":"time_abc"}}` gives the Time Entry ID `time_abc` |
| UpdateTimeEntry.UrlNamesEntry | lib/nodes/clickup/ClickUpUpdateTimeEntry.ts:99 | the URL's path is `team/{team}/time_entries/{timer}`, and its second and fourth segments decode to the team and timer ids |
| UpdateTimeEntry.UrlInjective | lib/nodes/clickup/ClickUpUpdateTimeEntry.ts:99 | different (team, timer) pairs give different URLs |
| UpdateTimeEntry.Body | lib/nodes/clickup/ClickUpUpdateTimeEntry.ts:101-111 | building the body throws exactly when TAGS is a non-nullish non-string |
| UpdateTimeEntry.BodyFields | lib/nodes/clickup/ClickUpUpdateTimeEntry.ts:103-111 | start and end when a time is known, duration when a number, `tid` and description when truthy, billable when a boolean, tags when any |
| UpdateTimeEntry.BodyKnownKeys | lib/nodes/clickup/ClickUpUpdateTimeEntry.ts:101-111 | no property outside the create body's keys is sent |
| UpdateTimeEntry.BodyAsCreate | lib/nodes/clickup/ClickUpUpdateTimeEntry.ts:101-111 | the update body equals the create body for the same fields with `START_NOW` false, so the current time is never used |
| UpdateTimeEntry.BuildRequest | lib/nodes/clickup/ClickUpUpdateTimeEntry.ts:113-119 | a PUT of the body to the entry with JSON headers, failing exactly when the body fails |
| UpdateTimeEntry.Execute | lib/nodes/clickup/ClickUpUpdateTimeEntry.ts:85-134 | a tags TypeError fails the run with no output set; otherwise the Time Entry ID falls back to the timer id, and failure follows exactly on an error status |
| UpdateTimeEntry.EchoesTimerId | lib/nodes/clickup/ClickUpUpdateTimeEntry.ts:121-126 | a response with no data, or with text that does not parse, echoes the trimmed timer id |
| DeleteTimeEntry.BuildRequest | lib/nodes/clickup/ClickUpDeleteTimeEntry.ts:60-70 | a DELETE without body or `Content-Type` to the team's entry `{timer_id}` |
| DeleteTimeEntry.SameResourceAsUpdate | lib/nodes/clickup/ClickUpDeleteTimeEntry.ts:63 | deleting an entry addresses the URL that updating it would |
| DeleteTimeEntry.Execute | lib/nodes/clickup/ClickUpDeleteTimeEntry.ts:56-81 | the Time Entry ID is always the trimmed timer id whatever the response says; failure follows exactly on an error status |
| DeleteTimeEntry.SameIdAsUpdate | lib/nodes/clickup/ClickUpDeleteTimeEntry.ts:76 | with no data in the response, delete and update report the same Time Entry ID |

## Left out

- The HTTP transport: the response is a parameter of each `Execute`. Headers are a string map, and redirects, timeouts and network errors, which the transport would throw, are not modelled.
- The host's input and output registry and the node base class are replaced by an `Inputs` datatype per node and a trace of `SetOutput` effects.
- The node metadata is descriptive and has no behaviour: names, descriptions, input and output type declarations, and examples.
- The catalogue index registers three of the nodes. It is a registration list and is not part of this model.
- The clock: `Date.now()` becomes the `now` parameter (the `START_NOW` default) and the `elapsed` parameter (the run-time output).
- JavaScript numbers are integers here. Fractions, `NaN`, `Infinity` and `-0` are not modelled, so `Number.isFinite` is "`Number` returned something".
- Integer precision: integers are unbounded here. `Number` rounding a numeral above `Number.MAX_SAFE_INTEGER` (2^53 - 1) to the nearest double is not modelled, nor is `Infinity` for very long numerals. The lemmas about digit runs state exact values only up to that bound. `String(n)` switching to exponent form from 10^21 is not modelled either.
- Strings are sequences of Unicode scalar values, not of UTF-16 code units. A lone surrogate in an identifier makes `encodeURIComponent` throw a `URIError` before any request is sent. Such a string cannot be written in the model, and `Uri.Encode` is total.
- Js.Get: a response object is a list of properties and `Get` takes the first one of a name. `JSON.parse` keeps the last of duplicate names, so response objects are taken to have distinct names; `JSON.parse` itself is abstract.
- `Number`, `Date.parse` and `JSON.parse` are abstract (`Js.Builtins`). Only the facts in `Js.Faithful` are assumed about `Number`. Date-string formats and the JSON grammar are not modelled.
- The exact text of the `TypeError` that a non-string input causes in `trim` is engine-specific. It is one constant, `Coerce.TrimNotAFunction`.
- Property order in a request body is not modelled. A body is a map, and JSON member order carries no meaning for the API.
- `JSON.stringify` of a number prints an integer in decimal. Floating-point formatting is left out with the floats.
- Coerce.FiniteNumbers: the function's own contract states only the count of kept numbers. Which numbers are kept is in `Coerce.FiniteNumbersMembers`, and their order and repeats are in `Coerce.FiniteNumbersAppend`.

## Notes on the behaviour as written

- The two task nodes that read a due date and the four time-entry nodes that read times each carry their own copy of `toMs`, and the copies differ:
  - The task copy tests truthiness and calls `trim` only to check for blankness, so a truthy non-string throws. It hands the untrimmed text to `Number` and `Date.parse`.
  - The time-entry copy keeps a number as it is and converts anything else with `String(…)`, so it never throws. It trims before reading.
  - `Coerce.ToMsVariantsAgree` states when the two agree.
- The task nodes decide `due_date_time` by testing the untrimmed due text against `^\d+$`, while `Number` ignores padding. A padded numeric due date such as ` 123` therefore sends both `due_date: 123` and `due_date_time: true` (`CreateTask.PaddedNumericDue`).
- The id probe orders are those of the code:
  - Create Task probes `task.id` before `data.id`.
  - Create Time Entry probes `time_entry_id`.
  - Start, Stop and Update Time Entry do not probe `time_entry_id` (`StartTimeEntry.TimeEntryIdOnlyOnCreate`).
  - Delete Time Entry probes nothing. It always reports the timer id it was given.
