/**
 * The location search: a search for videos near a point, whose video ids are
 * joined with ',' into one id list for a second, videos lookup, followed by
 * a listing of the videos found.
 */
module GeolocationSearch {
  import opened Wrappers
  import opened Prompts
  import Strings
  import Search

  /** A search result, reduced to the video id of its resource id. */
  datatype SearchResult = SearchResult(videoId: Option<string>)

  /** The fields of a video the listing reads (the recording location is left out). */
  datatype Video = Video(id: string, title: string, thumbnailUrl: string)

  const DefaultLocation := "37.42307,-122.08427"
  const DefaultRadius := "5km"
  const IdDelimiter := ','

  /** The location a console line gives: an empty line means the default coordinates. */
  function LocationFromUser(line: string): (location: string)
    ensures |line| < 1 ==> location == DefaultLocation
    ensures |line| >= 1 ==> location == line
  {
    OrDefault(line, DefaultLocation)
  }

  /** The radius a console line gives: an empty line means "5km". */
  function RadiusFromUser(line: string): (radius: string)
    ensures |line| < 1 ==> radius == DefaultRadius
    ensures |line| >= 1 ==> radius == line
  {
    OrDefault(line, DefaultRadius)
  }

  /** The id list for the lookup, collected from the results in order: one entry per result. */
  method CollectVideoIds(results: seq<SearchResult>) returns (videoIds: seq<Option<string>>)
    ensures |videoIds| == |results|
    ensures forall i :: 0 <= i < |results| ==> videoIds[i] == results[i].videoId
  {
    videoIds := [];
    for i := 0 to |results|
      invariant |videoIds| == i
      invariant forall k :: 0 <= k < i ==> videoIds[k] == results[k].videoId
    {
      videoIds := videoIds + [results[i].videoId];
    }
  }

  predicate AllPresent(ids: seq<Option<string>>)
  {
    forall i :: 0 <= i < |ids| ==> ids[i].Some?
  }

  function Values(ids: seq<Option<string>>): (values: seq<string>)
    requires AllPresent(ids)
    ensures |values| == |ids| && forall i :: 0 <= i < |ids| ==> values[i] == ids[i].value
  {
    seq(|ids|, i requires 0 <= i < |ids| => ids[i].value)
  }

  /**
   * `Joiner.on(',').join(videoIds)`: `None` is the NullPointerException the
   * joiner throws on a null element.
   */
  function JoinIds(ids: seq<Option<string>>): (r: Option<string>)
    ensures r.None? <==> !AllPresent(ids)
  {
    if AllPresent(ids) then Some(Strings.Join(Values(ids), [IdDelimiter])) else None
  }

  /**
   * For ids without commas, n ids give n - 1 commas, the list starts with the
   * first id and ends with the last, and splitting on ',' gives the ids back.
   */
  lemma JoinedIds(ids: seq<Option<string>>)
    requires AllPresent(ids) && |ids| >= 1 && Strings.Free(Values(ids), IdDelimiter)
    ensures var joined := JoinIds(ids).value;
      && Strings.Count(joined, IdDelimiter) == |ids| - 1
      && |joined| >= |ids[0].value| && joined[..|ids[0].value|] == ids[0].value
      && |joined| >= |ids[|ids| - 1].value| && joined[|joined| - |ids[|ids| - 1].value|..] == ids[|ids| - 1].value
      && Strings.Split(joined, IdDelimiter) == Values(ids)
  {
    var values := Values(ids);
    assert JoinIds(ids).value == Strings.Join(values, [IdDelimiter]);
    assert values[0] == ids[0].value && values[|values| - 1] == ids[|ids| - 1].value;
    Strings.CountJoin(values, IdDelimiter);
    Strings.JoinEnds(values, [IdDelimiter]);
    Strings.SplitJoin(values, IdDelimiter);
  }

  /** When, in addition, no id is empty, no comma opens or closes the list. */
  lemma JoinedIdsEnds(ids: seq<Option<string>>)
    requires AllPresent(ids) && |ids| >= 1 && Strings.Free(Values(ids), IdDelimiter)
    requires forall i :: 0 <= i < |ids| ==> ids[i].value != ""
    ensures var joined := JoinIds(ids).value;
      |joined| >= 1 && joined[0] != IdDelimiter && joined[|joined| - 1] != IdDelimiter
  {
    var first := ids[0].value;
    var last := ids[|ids| - 1].value;
    JoinedIds(ids);
    var joined := JoinIds(ids).value;
    assert Values(ids)[0] == first && Values(ids)[|ids| - 1] == last;
    assert joined[0] == joined[..|first|][0] == first[0];
    assert joined[|joined| - 1] == joined[|joined| - |last|..][|last| - 1] == last[|last| - 1];
    assert first[0] in first && last[|last| - 1] in last;
  }

  /** No search result gives an empty id list. */
  lemma NoResultsNoIds()
    ensures JoinIds([]) == Some("")
  {
  }

  /** One printed block. */
  datatype VideoEntry = VideoEntry(id: string, title: string, thumbnailUrl: string)

  /** `prettyPrint`: the no-results message exactly when there is no video, then one entry per video, in order. */
  method PrettyPrint(videos: seq<Video>) returns (noResults: bool, entries: seq<VideoEntry>)
    ensures noResults <==> videos == []
    ensures |entries| == |videos|
    ensures forall i :: 0 <= i < |videos| ==>
      entries[i] == VideoEntry(videos[i].id, videos[i].title, videos[i].thumbnailUrl)
  {
    noResults := |videos| == 0;
    entries := [];
    var i := 0;
    while i < |videos|
      invariant 0 <= i <= |videos| && |entries| == i
      invariant forall k :: 0 <= k < i ==>
        entries[k] == VideoEntry(videos[k].id, videos[k].title, videos[k].thumbnailUrl)
    {
      var single := videos[i];
      entries := entries + [VideoEntry(single.id, single.title, single.thumbnailUrl)];
      i := i + 1;
    }
  }

  /** The search request: key, term, location, radius, type filter and page size. */
  datatype SearchRequest = SearchRequest(key: Option<string>, q: string, location: string, locationRadius: string, kind: string, maxResults: int)

  /** What `prettyPrint` shows. */
  datatype Printout = Printout(query: string, noResults: bool, entries: seq<VideoEntry>)

  /**
   * `main` after the properties are loaded, given the three console lines,
   * the search result list (`None` for a null list) and the video list of the
   * lookup (`None` for a null list). `lookup` is the id list the videos
   * request carries, if that request is made.
   */
  method Run(properties: map<string, string>, queryLine: string, locationLine: string, radiusLine: string,
             results: Option<seq<SearchResult>>, videos: Option<seq<Video>>)
    returns (request: SearchRequest, lookup: Option<string>, printout: Option<Printout>)
    ensures request.q == Search.QueryFromUser(queryLine)
    ensures request.location == LocationFromUser(locationLine) && request.locationRadius == RadiusFromUser(radiusLine)
    ensures request.kind == "video" && request.maxResults == Search.NumberOfVideosReturned
    ensures request.key == if Search.ApiKeyProperty in properties then Some(properties[Search.ApiKeyProperty]) else None
    ensures results.None? ==> lookup.None? && printout.None?
    ensures results.Some? ==> lookup == JoinIds(seq(|results.value|, i requires 0 <= i < |results.value| => results.value[i].videoId))
    ensures printout.Some? ==> lookup.Some? && videos.Some?
    ensures lookup.Some? && videos.Some? ==>
      && printout.Some? && printout.value.query == request.q
      && (printout.value.noResults <==> videos.value == [])
      && |printout.value.entries| == |videos.value|
      && forall i :: 0 <= i < |videos.value| ==>
        printout.value.entries[i] == VideoEntry(videos.value[i].id, videos.value[i].title, videos.value[i].thumbnailUrl)
  {
    var queryTerm := Search.QueryFromUser(queryLine);
    var location := LocationFromUser(locationLine);
    var locationRadius := RadiusFromUser(radiusLine);
    var apiKey := if Search.ApiKeyProperty in properties then Some(properties[Search.ApiKeyProperty]) else None;
    request := SearchRequest(apiKey, queryTerm, location, locationRadius, "video", Search.NumberOfVideosReturned);
    if results.None? {
      return request, None, None;
    }
    var videoIds := CollectVideoIds(results.value);
    assert videoIds == seq(|results.value|, i requires 0 <= i < |results.value| => results.value[i].videoId);
    lookup := JoinIds(videoIds);
    if lookup.None? || videos.None? {
      return request, lookup, None;
    }
    var noResults, entries := PrettyPrint(videos.value);
    printout := Some(Printout(queryTerm, noResults, entries));
  }
}
