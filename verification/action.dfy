/** What every ClickUp node does around its one HTTP call: the request it hands to the
    transport, the response it gets back, and the outputs it sets before it fails or
    returns. A run is a trace of effects, so that "the outputs are set first, then the
    node fails" is a statement about the order of the trace. */
module Action {
  import opened Wrappers
  import opened Text
  import opened Js
  import Uri

  /** The ClickUp REST API root every node addresses. */
  const Base := "https://api.clickup.com/api/v2"

  datatype Method = Post | Put | Delete {
    function Name(): string {
      match this
      case Post => "POST"
      case Put => "PUT"
      case Delete => "DELETE"
    }
  }

  type Headers = seq<(string, string)>

  /** A request as handed to the transport. `body` is the JSON object sent as data, if any. */
  datatype Request = Request(verb: Method, url: string, headers: Headers, body: Option<Object>)

  /** The headers of a request with a JSON body: the token verbatim as `Authorization`. */
  function JsonHeaders(token: string): (h: Headers)
    ensures |h| == 3 && h[0] == ("Authorization", token)
    ensures ("Content-Type", "application/json") in h && ("Accept", "application/json") in h
  {
    [("Authorization", token), ("Content-Type", "application/json"), ("Accept", "application/json")]
  }

  /** The headers of a request without a body: no `Content-Type`. */
  function PlainHeaders(token: string): (h: Headers)
    ensures |h| == 2 && h[0] == ("Authorization", token)
    ensures ("Accept", "application/json") in h
    ensures forall i | 0 <= i < |h| :: h[i].0 != "Content-Type"
  {
    [("Authorization", token), ("Accept", "application/json")]
  }

  /** The URL of an API path: the root, then the path segments separated by slashes. */
  function Endpoint(segments: seq<string>): string {
    Base + "/" + Join(segments, '/')
  }

  /** A path segment: no slash in it, as `encodeURIComponent` guarantees. */
  predicate Segments(segments: seq<string>) {
    |segments| >= 1 && forall i | 0 <= i < |segments| :: '/' !in segments[i]
  }

  /** The path segments of a URL under the API root, or `None` for a URL elsewhere. */
  function PathOf(url: string): Option<seq<string>> {
    if |url| > |Base| && url[..|Base| + 1] == Base + "/" then Some(Split(url[|Base| + 1..], '/'))
    else None
  }

  /** The segments of an endpoint can be read back out of it. */
  lemma EndpointPath(segments: seq<string>)
    requires Segments(segments)
    ensures PathOf(Endpoint(segments)) == Some(segments)
  {
    var url := Endpoint(segments);
    assert url[..|Base| + 1] == Base + "/";
    assert url[|Base| + 1..] == Join(segments, '/');
    SplitJoin(segments, '/');
  }

  /** An endpoint with one more segment is the endpoint, a slash and that segment. */
  lemma EndpointSnoc(segments: seq<string>, last: string)
    requires |segments| >= 1
    ensures Endpoint(segments + [last]) == Endpoint(segments) + "/" + last
  {
    JoinSnoc(segments, last, '/');
  }

  /** Different segments give different endpoints. */
  lemma EndpointInjective(a: seq<string>, b: seq<string>)
    requires Segments(a) && Segments(b)
    requires Endpoint(a) == Endpoint(b)
    ensures a == b
  {
    EndpointPath(a);
    EndpointPath(b);
  }

  /** A path of two, three or four segments. */
  lemma Path2(a: string, b: string)
    ensures Join([a, b], '/') == a + "/" + b
  {
    assert [a, b][1..] == [b];
  }

  lemma Path3(a: string, b: string, c: string)
    ensures Join([a, b, c], '/') == a + "/" + b + "/" + c
  {
    assert [a, b, c][1..] == [b, c];
    Path2(b, c);
  }

  lemma Path4(a: string, b: string, c: string, d: string)
    ensures Join([a, b, c, d], '/') == a + "/" + b + "/" + c + "/" + d
  {
    assert [a, b, c, d][1..] == [b, c, d];
    Path3(b, c, d);
  }

  /** An identifier as it appears in a URL path. */
  lemma EncodedSegment(id: string)
    ensures '/' !in Uri.Encode(id)
    ensures Uri.Decode(Uri.Encode(id)) == Some(id)
  {
    Uri.NoSlash(id);
    Uri.DecodeEncode(id);
  }

  /** What the transport hands back: the status, the header object (`None` when absent) and
      the data, which is raw text or an already parsed JSON value (`None` is `undefined`). */
  datatype Response = Response(status: int, headers: Option<map<string, string>>, data: Value)

  /** The outputs a node can set, with the names the host shows. */
  datatype OutputName = StatusCode | HeadersOut | BodyOut | RunTime | TaskId | TimeEntryId {
    function Label(): string {
      match this
      case StatusCode => "Status code"
      case HeadersOut => "Headers"
      case BodyOut => "Body"
      case RunTime => "Run time"
      case TaskId => "Task ID"
      case TimeEntryId => "Time Entry ID"
    }
  }

  datatype Output = NumberOut(n: int) | StringOut(s: string) | MapOut(m: map<string, string>)

  /** One observable step of a run: setting an output, or failing with an error message. */
  datatype Effect = SetOutput(name: OutputName, value: Output) | Raise(message: string)

  type Trace = seq<Effect>

  /** The value an output has after the trace: the last one set. */
  function OutputOf(t: Trace, name: OutputName): Option<Output> {
    if |t| == 0 then None
    else
      var later := OutputOf(t[1..], name);
      if later.Some? then later
      else if t[0].SetOutput? && t[0].name == name then Some(t[0].value)
      else None
  }

  /** The message the run fails with, if it fails. */
  function Failure(t: Trace): Option<string> {
    if |t| == 0 then None
    else if t[0].Raise? then Some(t[0].message)
    else Failure(t[1..])
  }

  /** Nothing follows a failure. */
  predicate FailsLast(t: Trace) {
    forall i | 0 <= i < |t| :: t[i].Raise? ==> i == |t| - 1
  }

  /** The trace of `a` then `b`: an output is the one `b` sets last, or else the one `a` does. */
  lemma {:induction false} OutputOfAppend(a: Trace, b: Trace, name: OutputName)
    ensures OutputOf(a + b, name) == if OutputOf(b, name).Some? then OutputOf(b, name) else OutputOf(a, name)
  {
    if |a| > 0 {
      assert (a + b)[1..] == a[1..] + b;
      OutputOfAppend(a[1..], b, name);
    } else {
      assert a + b == b;
    }
  }

  /** The trace of `a` then `b` fails where `a` does, or else where `b` does. */
  lemma {:induction false} FailureAppend(a: Trace, b: Trace)
    ensures Failure(a + b) == if Failure(a).Some? then Failure(a) else Failure(b)
  {
    if |a| > 0 {
      assert (a + b)[1..] == a[1..] + b;
      FailureAppend(a[1..], b);
    } else {
      assert a + b == b;
    }
  }

  /** The error a node throws for an HTTP error status: `HTTP <status> <method> <url>`. */
  function HttpError(status: int, verb: Method, url: string): (msg: string)
    ensures "HTTP " + IntToDecimal(status) + " " <= msg
    ensures |verb.Name() + " " + url| <= |msg| && msg[|msg| - |verb.Name() + " " + url|..] == verb.Name() + " " + url
    ensures |msg| == |"HTTP " + IntToDecimal(status) + " "| + |verb.Name() + " " + url|
  {
    "HTTP " + IntToDecimal(status) + " " + verb.Name() + " " + url
  }

  /** `typeof data === "string" ? JSON.parse(data) : data`, with `null` when parsing throws. */
  function ParsedData(rt: Builtins, data: Value): (r: Value)
    ensures !(data.Some? && data.value.Str?) ==> r == data
    ensures data.Some? && data.value.Str? && rt.parseJson(data.value.s).Some? ==> r == rt.parseJson(data.value.s)
    ensures data.Some? && data.value.Str? && rt.parseJson(data.value.s).None? ==> r == Some(Null)
  {
    if data.Some? && data.value.Str? then
      match rt.parseJson(data.value.s)
      case Some(j) => Some(j)
      case None => Some(Null)
    else data
  }

  /** The `i`-th probe is the first to find a value that is not `null` or `undefined`. */
  predicate FirstHit(v: Value, paths: seq<seq<string>>, i: int) {
    && 0 <= i < |paths|
    && !Nullish(Probe(v, paths[i]))
    && forall j | 0 <= j < i :: Nullish(Probe(v, paths[j]))
  }

  /** No probe finds a value. */
  predicate NoHit(v: Value, paths: seq<seq<string>>) {
    forall j | 0 <= j < |paths| :: Nullish(Probe(v, paths[j]))
  }

  /** `v?.p1 ?? v?.p2 ?? … ?? fallback`: the value of the first probe that finds one, or the
      fallback when none does. */
  function ProbeChain(v: Value, paths: seq<seq<string>>, fallback: Json): (r: Json)
    ensures NoHit(v, paths) ==> r == fallback
    ensures forall i | FirstHit(v, paths, i) :: r == Probe(v, paths[i]).value
  {
    if |paths| == 0 then fallback
    else
      var rest := ProbeChain(v, paths[1..], fallback);
      assert forall j | 1 <= j < |paths| :: paths[1..][j - 1] == paths[j];
      assert forall i | FirstHit(v, paths, i) && i > 0 :: FirstHit(v, paths[1..], i - 1);
      Coalesce(Probe(v, paths[0]), rest)
  }

  /** How the create, start, stop and update nodes read an entity id out of a response: when
      the parsed data is an object or array, `String` of the first probe hit, the fallback
      standing in when nothing is hit; otherwise the fallback itself. */
  function ExtractId(rt: Builtins, data: Value, paths: seq<seq<string>>, fallback: string): (r: string)
    ensures !IsObject(ParsedData(rt, data)) ==> r == fallback
    ensures IsObject(ParsedData(rt, data)) && NoHit(ParsedData(rt, data), paths) ==> r == fallback
    ensures forall i | IsObject(ParsedData(rt, data)) && FirstHit(ParsedData(rt, data), paths, i) ::
      r == ToStr(Probe(ParsedData(rt, data), paths[i]).value)
  {
    var parsed := ParsedData(rt, data);
    if Truthy(parsed) && IsObject(parsed) then ToStr(ProbeChain(parsed, paths, Str(fallback))) else fallback
  }

  /** The Body output: text data as it came, anything else through `JSON.stringify(data ?? "")`,
      so that missing data reads as the two characters `""`. */
  function BodyText(data: Value): (r: string)
    ensures data.Some? && data.value.Str? ==> r == data.value.s
    ensures Nullish(data) ==> r == "\"\""
    ensures !Nullish(data) && !data.value.Str? ==> r == Stringify(data.value)
  {
    if data.Some? && data.value.Str? then data.value.s else Stringify(Coalesce(data, Str("")))
  }

  /** What every node does once the response is in: set the status, the id output if the
      node has one, the headers, the body and the run time; then throw when the status is 400
      or more. */
  function Respond(res: Response, id: Option<(OutputName, string)>, elapsed: int, verb: Method, url: string): (t: Trace)
    requires id.Some? ==> id.value.0 in {TaskId, TimeEntryId}
    ensures Failure(t) == if res.status >= 400 then Some(HttpError(res.status, verb, url)) else None
    ensures FailsLast(t)
    ensures OutputOf(t, StatusCode) == Some(NumberOut(res.status))
    ensures OutputOf(t, HeadersOut) == Some(MapOut(res.headers.GetOr(map[])))
    ensures OutputOf(t, BodyOut) == Some(StringOut(BodyText(res.data)))
    ensures OutputOf(t, RunTime) == Some(NumberOut(elapsed))
    ensures id.Some? ==> OutputOf(t, id.value.0) == Some(StringOut(id.value.1))
    ensures forall n | n in {TaskId, TimeEntryId} && (id.None? || n != id.value.0) :: OutputOf(t, n) == None
  {
    var idPart := if id.Some? then [SetOutput(id.value.0, StringOut(id.value.1))] else [];
    var settle := if res.status >= 400 then [Raise(HttpError(res.status, verb, url))] else [];
    var t := [SetOutput(StatusCode, NumberOut(res.status))] + idPart
      + [SetOutput(HeadersOut, MapOut(res.headers.GetOr(map[])))]
      + [SetOutput(BodyOut, StringOut(BodyText(res.data)))]
      + [SetOutput(RunTime, NumberOut(elapsed))]
      + settle;
    RespondFails(
      SetOutput(StatusCode, NumberOut(res.status)), idPart,
      SetOutput(HeadersOut, MapOut(res.headers.GetOr(map[]))),
      SetOutput(BodyOut, StringOut(BodyText(res.data))),
      SetOutput(RunTime, NumberOut(elapsed)), settle);
    forall n ensures OutputOf(t, n) == RespondValue(
      SetOutput(StatusCode, NumberOut(res.status)), idPart,
      SetOutput(HeadersOut, MapOut(res.headers.GetOr(map[]))),
      SetOutput(BodyOut, StringOut(BodyText(res.data))),
      SetOutput(RunTime, NumberOut(elapsed)), n)
    {
      RespondOutputs(
        SetOutput(StatusCode, NumberOut(res.status)), idPart,
        SetOutput(HeadersOut, MapOut(res.headers.GetOr(map[]))),
        SetOutput(BodyOut, StringOut(BodyText(res.data))),
        SetOutput(RunTime, NumberOut(elapsed)), settle, n);
    }
    t
  }

  /** The output a one-effect trace sets. */
  lemma OutputOfOne(e: Effect, name: OutputName)
    ensures OutputOf([e], name) == if e.SetOutput? && e.name == name then Some(e.value) else None
  {
    assert [e][1..] == [];
  }

  /** The value of output `n` after the five output steps of a response, the last one winning. */
  function RespondValue(a: Effect, idPart: Trace, b: Effect, c: Effect, d: Effect, n: OutputName): Option<Output>
    requires a.SetOutput? && b.SetOutput? && c.SetOutput? && d.SetOutput?
    requires idPart == [] || (|idPart| == 1 && idPart[0].SetOutput?)
  {
    if d.name == n then Some(d.value)
    else if c.name == n then Some(c.value)
    else if b.name == n then Some(b.value)
    else if idPart != [] && idPart[0].name == n then Some(idPart[0].value)
    else if a.name == n then Some(a.value)
    else None
  }

  lemma RespondOutputs(a: Effect, idPart: Trace, b: Effect, c: Effect, d: Effect, settle: Trace, n: OutputName)
    requires a.SetOutput? && b.SetOutput? && c.SetOutput? && d.SetOutput?
    requires idPart == [] || (|idPart| == 1 && idPart[0].SetOutput?)
    requires settle == [] || (|settle| == 1 && settle[0].Raise?)
    ensures OutputOf([a] + idPart + [b] + [c] + [d] + settle, n) == RespondValue(a, idPart, b, c, d, n)
  {
    var t1 := [a] + idPart;
    var t2 := t1 + [b];
    var t3 := t2 + [c];
    var t4 := t3 + [d];
    OutputOfOne(a, n);
    if idPart != [] { OutputOfOne(idPart[0], n); }
    OutputOfOne(b, n);
    OutputOfOne(c, n);
    OutputOfOne(d, n);
    if settle != [] { OutputOfOne(settle[0], n); }
    OutputOfAppend([a], idPart, n);
    OutputOfAppend(t1, [b], n);
    OutputOfAppend(t2, [c], n);
    OutputOfAppend(t3, [d], n);
    OutputOfAppend(t4, settle, n);
  }

  lemma RespondFails(a: Effect, idPart: Trace, b: Effect, c: Effect, d: Effect, settle: Trace)
    requires a.SetOutput? && b.SetOutput? && c.SetOutput? && d.SetOutput?
    requires idPart == [] || (|idPart| == 1 && idPart[0].SetOutput?)
    requires settle == [] || (|settle| == 1 && settle[0].Raise?)
    ensures Failure([a] + idPart + [b] + [c] + [d] + settle) == Failure(settle)
    ensures FailsLast([a] + idPart + [b] + [c] + [d] + settle)
  {
    var t4 := [a] + idPart + [b] + [c] + [d];
    assert forall i | 0 <= i < |t4| :: t4[i].SetOutput?;
    NoFailure(t4);
    FailureAppend(t4, settle);
  }

  /** A trace that only sets outputs does not fail. */
  lemma {:induction false} NoFailure(t: Trace)
    requires forall i | 0 <= i < |t| :: t[i].SetOutput?
    ensures Failure(t) == None
  {
    if |t| > 0 {
      assert forall i | 0 <= i < |t| - 1 :: t[1..][i] == t[i + 1];
      NoFailure(t[1..]);
    }
  }
}
