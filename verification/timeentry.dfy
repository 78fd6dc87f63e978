/** What the five time-entry nodes share: their URLs all live under
    `/team/{team_id}/time_entries`, and the start, stop and update nodes read the entry id out
    of a response the same way. */
module TimeEntry {
  import opened Wrappers
  import opened Text
  import opened Js
  import opened Action
  import Uri

  /** The path of a team's time entries: `team/{encodeURIComponent(teamId)}/time_entries`. */
  function RootSegments(teamId: string): seq<string> {
    ["team", Uri.Encode(teamId), "time_entries"]
  }

  /** `${BASE}/team/${encodeURIComponent(teamId)}/time_entries`: the create node's URL, and
      the root of the others'. */
  function Root(teamId: string): string {
    Endpoint(RootSegments(teamId))
  }

  /** Spelled out, the root is the API root, `/team/`, the encoded team id and
      `/time_entries`. */
  lemma RootIsTemplate(teamId: string)
    ensures Root(teamId) == Base + "/team/" + Uri.Encode(teamId) + "/time_entries"
  {
    Path3("team", Uri.Encode(teamId), "time_entries");
  }

  /** The root names the team: its path is `team/{id}/time_entries`, and the second segment
      decodes to the team id. */
  lemma RootNamesTeam(teamId: string)
    ensures PathOf(Root(teamId)) == Some(RootSegments(teamId))
    ensures Uri.Decode(RootSegments(teamId)[1]) == Some(teamId)
  {
    var segments := RootSegments(teamId);
    EncodedSegment(teamId);
    assert Segments(segments) by {
      assert forall i | 0 <= i < |segments| :: segments[i] in {"team", Uri.Encode(teamId), "time_entries"};
    }
    EndpointPath(segments);
  }

  /** A URL one segment below the root names the team too, and that segment. */
  lemma BelowRootNamesTeam(teamId: string, last: string)
    requires '/' !in last
    ensures PathOf(Root(teamId) + "/" + last) == Some(RootSegments(teamId) + [last])
    ensures Uri.Decode((RootSegments(teamId) + [last])[1]) == Some(teamId)
  {
    var segments := RootSegments(teamId) + [last];
    EncodedSegment(teamId);
    EndpointSnoc(RootSegments(teamId), last);
    assert segments == ["team", Uri.Encode(teamId), "time_entries", last];
    EndpointPath(segments);
  }

  /** Where the start, stop and update nodes look for the entry id, in order:
      `id`, `timer_id`, `data.id`, `time_entry.id`. */
  const EntryIdPaths: seq<seq<string>> := [["id"], ["timer_id"], ["data", "id"], ["time_entry", "id"]]

  /** The Time Entry ID output of the start, stop and update nodes: `String` of the first
      hit among `id`, `timer_id`, `data.id` and `time_entry.id`, and the fallback when there is
      none or the data is not an object. */
  function EntryId(rt: Builtins, data: Value, fallback: string): (r: string)
    ensures !IsObject(ParsedData(rt, data)) ==> r == fallback
    ensures IsObject(ParsedData(rt, data)) && NoHit(ParsedData(rt, data), EntryIdPaths) ==> r == fallback
    ensures forall i | IsObject(ParsedData(rt, data)) && FirstHit(ParsedData(rt, data), EntryIdPaths, i) ::
      r == ToStr(Probe(ParsedData(rt, data), EntryIdPaths[i]).value)
  {
    ExtractId(rt, data, EntryIdPaths, fallback)
  }
}
