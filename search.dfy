/**
 * The keyword search: one search request for the term read from the
 * console, and a listing that keeps only the results whose resource id is
 * of kind "youtube#video", in the order the service returned them.
 */
module Search {
  import opened Wrappers
  import opened Prompts

  datatype ResourceId = ResourceId(kind: string, videoId: Option<string>)

  /** The fields of a search result the listing reads. */
  datatype SearchResult = SearchResult(id: ResourceId, title: string, thumbnailUrl: string)

  /** One printed block. */
  datatype VideoEntry = VideoEntry(videoId: Option<string>, title: string, thumbnailUrl: string)

  const VideoKind := "youtube#video"
  const DefaultQuery := "YouTube Developers Live"
  const NumberOfVideosReturned := 25

  /** The search term a console line gives: an empty line means "YouTube Developers Live". */
  function QueryFromUser(line: string): (query: string)
    ensures |line| < 1 ==> query == DefaultQuery
    ensures |line| >= 1 ==> query == line
  {
    OrDefault(line, DefaultQuery)
  }

  predicate IsVideo(result: SearchResult)
  {
    result.id.kind == VideoKind
  }

  function EntryOf(result: SearchResult): VideoEntry
  {
    VideoEntry(result.id.videoId, result.title, result.thumbnailUrl)
  }

  /** The entries one result contributes: its own for a video, none otherwise. */
  function Kept(result: SearchResult): seq<VideoEntry>
  {
    if IsVideo(result) then [EntryOf(result)] else []
  }

  /** Reference definition of the listing: the video results' entries, in result order. */
  function Videos(results: seq<SearchResult>): (entries: seq<VideoEntry>)
    ensures |entries| <= |results|
  {
    if results == [] then [] else Kept(results[0]) + Videos(results[1..])
  }

  /** Filtering distributes over concatenation, so results keep their relative order. */
  lemma {:induction false} VideosAppend(a: seq<SearchResult>, b: seq<SearchResult>)
    ensures Videos(a + b) == Videos(a) + Videos(b)
    decreases |a|
  {
    if a == [] {
      assert a + b == b;
    } else {
      var head := Kept(a[0]);
      assert (a + b)[0] == a[0];
      assert (a + b)[1..] == a[1..] + b;
      assert Videos(a + b) == head + Videos(a[1..] + b);
      VideosAppend(a[1..], b);
      assert head + (Videos(a[1..]) + Videos(b)) == (head + Videos(a[1..])) + Videos(b);
    }
  }

  /** An entry is listed exactly when some video result carries it. */
  lemma {:induction false} VideosMembership(results: seq<SearchResult>, e: VideoEntry)
    ensures e in Videos(results) <==> exists i :: 0 <= i < |results| && IsVideo(results[i]) && EntryOf(results[i]) == e
    decreases |results|
  {
    if results != [] {
      VideosMembership(results[1..], e);
      if exists i :: 0 <= i < |results[1..]| && IsVideo(results[1..][i]) && EntryOf(results[1..][i]) == e {
        var i :| 0 <= i < |results[1..]| && IsVideo(results[1..][i]) && EntryOf(results[1..][i]) == e;
        assert results[i + 1] == results[1..][i];
      }
      if exists i :: 0 <= i < |results| && IsVideo(results[i]) && EntryOf(results[i]) == e {
        var i :| 0 <= i < |results| && IsVideo(results[i]) && EntryOf(results[i]) == e;
        if i > 0 {
          assert results[1..][i - 1] == results[i];
        }
      }
    }
  }

  /** Results that are all videos are all listed; none are listed when none is a video. */
  lemma {:induction false} VideosExtremes(results: seq<SearchResult>)
    ensures (forall i :: 0 <= i < |results| ==> IsVideo(results[i])) ==> |Videos(results)| == |results|
    ensures (forall i :: 0 <= i < |results| ==> !IsVideo(results[i])) ==> Videos(results) == []
    decreases |results|
  {
    if results != [] {
      VideosExtremes(results[1..]);
      assert forall i :: 0 <= i < |results[1..]| ==> results[1..][i] == results[i + 1];
    }
  }

  /**
   * `prettyPrint`: the no-results message exactly when the list is empty,
   * then one entry per video result.
   */
  method PrettyPrint(results: seq<SearchResult>) returns (noResults: bool, entries: seq<VideoEntry>)
    ensures noResults <==> results == []
    ensures entries == Videos(results)
  {
    noResults := |results| == 0;
    entries := [];
    var i := 0;
    while i < |results|
      invariant 0 <= i <= |results|
      invariant entries == Videos(results[..i])
    {
      var single := results[i];
      ghost var before := entries;
      if single.id.kind == VideoKind {
        entries := entries + [VideoEntry(single.id.videoId, single.title, single.thumbnailUrl)];
      }
      assert entries == before + Kept(single);
      VideosAppend(results[..i], [single]);
      assert Videos([single]) == Kept(single) + Videos([]);
      assert results[..i + 1] == results[..i] + [single];
      i := i + 1;
    }
    assert results[..i] == results;
  }

  /** The search request: key, term, type filter and page size. */
  datatype SearchRequest = SearchRequest(key: Option<string>, q: string, kind: string, maxResults: int)

  /** What `prettyPrint` shows. */
  datatype Printout = Printout(query: string, noResults: bool, entries: seq<VideoEntry>)

  const ApiKeyProperty := "youtube.apikey"

  /**
   * `main` after the properties are loaded, given the console line and the
   * result list of the response (`None` for a null list, which skips
   * printing).
   */
  method Run(properties: map<string, string>, queryLine: string, results: Option<seq<SearchResult>>)
    returns (request: SearchRequest, printout: Option<Printout>)
    ensures request.q == QueryFromUser(queryLine) && request.kind == "video"
    ensures request.maxResults == NumberOfVideosReturned
    ensures request.key == if ApiKeyProperty in properties then Some(properties[ApiKeyProperty]) else None
    ensures printout.None? <==> results.None?
    ensures printout.Some? ==>
      && printout.value.query == QueryFromUser(queryLine)
      && (printout.value.noResults <==> results.value == [])
      && printout.value.entries == Videos(results.value)
  {
    var queryTerm := QueryFromUser(queryLine);
    var apiKey := if ApiKeyProperty in properties then Some(properties[ApiKeyProperty]) else None;
    request := SearchRequest(apiKey, queryTerm, "video", NumberOfVideosReturned);
    if results.None? {
      return request, None;
    }
    var noResults, entries := PrettyPrint(results.value);
    printout := Some(Printout(queryTerm, noResults, entries));
  }

  /** A non-empty list without videos shows neither the no-results message nor any entry. */
  lemma NoVideosShowsNothing(results: seq<SearchResult>)
    requires results != [] && forall i :: 0 <= i < |results| ==> !IsVideo(results[i])
    ensures Videos(results) == []
  {
    VideosExtremes(results);
  }
}
