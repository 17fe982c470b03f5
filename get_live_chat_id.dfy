/**
 * Resolution of a live chat id: either from the signed-in user's active
 * broadcasts or from one video's live-streaming details. Both lookups scan
 * the response items in order and take the first id that is non-null and
 * non-empty. A null intermediate object (a broadcast without snippet, a video
 * without live-streaming details) makes the source throw a
 * NullPointerException, which the program's last catch block reports.
 */
module GetLiveChatId {
  import opened Wrappers

  datatype BroadcastSnippet = BroadcastSnippet(liveChatId: Option<string>)
  datatype LiveBroadcast = LiveBroadcast(snippet: Option<BroadcastSnippet>)
  datatype LiveStreamingDetails = LiveStreamingDetails(activeLiveChatId: Option<string>)
  datatype Video = Video(liveStreamingDetails: Option<LiveStreamingDetails>)

  /** What a scan of the response items ends with. */
  datatype Lookup =
    | Found(liveChatId: string)
    | NotFound          // the source returns null
    | MissingPart       // a null snippet or details object: NullPointerException

  /** The id a scan accepts: non-null and non-empty. */
  predicate Usable(id: Option<string>)
  {
    id.Some? && id.value != ""
  }

  /** The id each item carries; the outer `None` is a missing intermediate object. */
  function BroadcastIds(items: seq<LiveBroadcast>): (ids: seq<Option<Option<string>>>)
    ensures |ids| == |items|
  {
    seq(|items|, i requires 0 <= i < |items| =>
      match items[i].snippet
      case None => None
      case Some(s) => Some(s.liveChatId))
  }

  function VideoIds(items: seq<Video>): (ids: seq<Option<Option<string>>>)
    ensures |ids| == |items|
  {
    seq(|items|, i requires 0 <= i < |items| =>
      match items[i].liveStreamingDetails
      case None => None
      case Some(d) => Some(d.activeLiveChatId))
  }

  /** Reference definition of the scan both overloads perform. */
  function Scan(ids: seq<Option<Option<string>>>): (r: Lookup)
    ensures r.Found? ==> r.liveChatId != ""
  {
    if ids == [] then NotFound
    else if ids[0].None? then MissingPart
    else if Usable(ids[0].value) then Found(ids[0].value.value)
    else Scan(ids[1..])
  }

  /** Every item before `k` is present and carries no usable id. */
  predicate SkippedBefore(ids: seq<Option<Option<string>>>, k: int)
    requires 0 <= k <= |ids|
  {
    forall j :: 0 <= j < k ==> ids[j].Some? && !Usable(ids[j].value)
  }

  /** The scan finds `id` exactly when `id` is the first usable id and no item before it is missing a part. */
  lemma {:induction false} ScanFound(ids: seq<Option<Option<string>>>, id: string)
    ensures Scan(ids) == Found(id) <==>
      exists k :: 0 <= k < |ids| && SkippedBefore(ids, k) && ids[k] == Some(Some(id)) && id != ""
    decreases |ids|
  {
    if ids == [] {
    } else if ids[0].None? {
      forall k | 0 < k < |ids| ensures !SkippedBefore(ids, k) {
        assert ids[0].None?;
      }
    } else if Usable(ids[0].value) {
      if Scan(ids) == Found(id) {
        assert SkippedBefore(ids, 0) && ids[0] == Some(Some(id));
      }
      forall k | 0 < k < |ids| ensures !SkippedBefore(ids, k) {
        assert !(ids[0].Some? && !Usable(ids[0].value));
      }
    } else {
      ScanFound(ids[1..], id);
      if Scan(ids) == Found(id) {
        var k :| 0 <= k < |ids[1..]| && SkippedBefore(ids[1..], k) && ids[1..][k] == Some(Some(id)) && id != "";
        assert SkippedBefore(ids, k + 1) by {
          forall j | 0 <= j < k + 1 ensures ids[j].Some? && !Usable(ids[j].value) {
            if j > 0 { assert ids[j] == ids[1..][j - 1]; }
          }
        }
        assert ids[k + 1] == ids[1..][k];
      }
      if exists k :: 0 <= k < |ids| && SkippedBefore(ids, k) && ids[k] == Some(Some(id)) && id != "" {
        var k :| 0 <= k < |ids| && SkippedBefore(ids, k) && ids[k] == Some(Some(id)) && id != "";
        assert k > 0;
        assert SkippedBefore(ids[1..], k - 1) by {
          forall j | 0 <= j < k - 1 ensures ids[1..][j].Some? && !Usable(ids[1..][j].value) {
            assert ids[1..][j] == ids[j + 1];
          }
        }
        assert ids[1..][k - 1] == ids[k];
      }
    }
  }

  /** The scan finds nothing exactly when every item is present and carries no usable id (so also on an empty list). */
  lemma {:induction false} ScanNotFound(ids: seq<Option<Option<string>>>)
    ensures Scan(ids) == NotFound <==> SkippedBefore(ids, |ids|)
    decreases |ids|
  {
    if ids == [] {
    } else if ids[0].None? || Usable(ids[0].value) {
      assert !SkippedBefore(ids, |ids|) by {
        assert !(ids[0].Some? && !Usable(ids[0].value));
      }
    } else {
      ScanNotFound(ids[1..]);
      assert SkippedBefore(ids, |ids|) <==> SkippedBefore(ids[1..], |ids[1..]|) by {
        if SkippedBefore(ids[1..], |ids[1..]|) {
          forall j | 0 <= j < |ids| ensures ids[j].Some? && !Usable(ids[j].value) {
            if j > 0 { assert ids[j] == ids[1..][j - 1]; }
          }
        }
        if SkippedBefore(ids, |ids|) {
          forall j | 0 <= j < |ids[1..]| ensures ids[1..][j].Some? && !Usable(ids[1..][j].value) {
            assert ids[1..][j] == ids[j + 1];
          }
        }
      }
    }
  }

  /** One step of the scan past an item without a usable id. */
  lemma ScanSkip(ids: seq<Option<Option<string>>>, i: int)
    requires 0 <= i < |ids| && ids[i].Some? && !Usable(ids[i].value)
    ensures Scan(ids[i..]) == Scan(ids[i + 1..])
  {
    assert ids[i..][1..] == ids[i + 1..];
  }

  /** The broadcast overload: the first usable `snippet.liveChatId`, scanning the active broadcasts in order. */
  method LiveChatIdOfBroadcasts(items: seq<LiveBroadcast>) returns (r: Lookup)
    ensures r == Scan(BroadcastIds(items))
  {
    ghost var ids := BroadcastIds(items);
    for i := 0 to |items|
      invariant Scan(ids) == Scan(ids[i..])
    {
      var snippet := items[i].snippet;
      if snippet.None? {
        return MissingPart;
      }
      var liveChatId := snippet.value.liveChatId;
      if liveChatId.Some? && liveChatId.value != "" {
        return Found(liveChatId.value);
      }
      ScanSkip(ids, i);
    }
    return NotFound;
  }

  /** The video overload: the first usable `liveStreamingDetails.activeLiveChatId`, scanning the listed videos in order. */
  method LiveChatIdOfVideos(items: seq<Video>) returns (r: Lookup)
    ensures r == Scan(VideoIds(items))
  {
    ghost var ids := VideoIds(items);
    for i := 0 to |items|
      invariant Scan(ids) == Scan(ids[i..])
    {
      var details := items[i].liveStreamingDetails;
      if details.None? {
        return MissingPart;
      }
      var liveChatId := details.value.activeLiveChatId;
      if liveChatId.Some? && liveChatId.value != "" {
        return Found(liveChatId.value);
      }
      ScanSkip(ids, i);
    }
    return NotFound;
  }

  /** Which lookup the command line selects. */
  datatype ChatIdSource = FromVideo(videoId: string) | FromActiveBroadcasts

  /** Exactly one argument names a video; any other count uses the active broadcasts. */
  function SourceFor(args: seq<string>): (source: ChatIdSource)
    ensures source.FromVideo? <==> |args| == 1
    ensures source.FromVideo? ==> source.videoId == args[0]
  {
    if |args| == 1 then FromVideo(args[0]) else FromActiveBroadcasts
  }

  /** What the program ends with. */
  datatype Outcome =
    | Printed(line: string)
    | Exited(status: int, diagnostic: string)
    | Reported(diagnostic: string)   // an exception caught by the last catch block

  const ChatIdLabel := "Live chat id: "
  const NotFoundMessage := "Unable to find a live chat id"
  const ThrowablePrefix := "Throwable: "

  /** How the result of a lookup is reported. */
  function Report(lookup: Lookup): (o: Outcome)
    ensures o.Exited? <==> lookup.NotFound?
    ensures o.Exited? ==> o.status == 1 && o.diagnostic == NotFoundMessage
    ensures o.Printed? <==> lookup.Found?
    ensures o.Printed? ==>
      (|o.line| >= |ChatIdLabel| && o.line[..|ChatIdLabel|] == ChatIdLabel
       && o.line[|ChatIdLabel|..] == lookup.liveChatId)
  {
    match lookup
    case Found(id) => Printed(ChatIdLabel + id)
    case NotFound => Exited(1, NotFoundMessage)
    case MissingPart => Reported(ThrowablePrefix)
  }

  /**
   * The program after authorisation: the argument count picks the lookup,
   * whose response items are given, and the result is reported.
   */
  method Run(args: seq<string>, broadcasts: seq<LiveBroadcast>, videos: seq<Video>)
    returns (source: ChatIdSource, outcome: Outcome)
    ensures source == SourceFor(args)
    ensures |args| == 1 ==> outcome == Report(Scan(VideoIds(videos)))
    ensures |args| != 1 ==> outcome == Report(Scan(BroadcastIds(broadcasts)))
  {
    var lookup: Lookup;
    if |args| == 1 {
      source := FromVideo(args[0]);
      lookup := LiveChatIdOfVideos(videos);
    } else {
      source := FromActiveBroadcasts;
      lookup := LiveChatIdOfBroadcasts(broadcasts);
    }
    match lookup
    case Found(id) =>
      outcome := Printed(ChatIdLabel + id);
    case NotFound =>
      outcome := Exited(1, NotFoundMessage);
    case MissingPart =>
      outcome := Reported(ThrowablePrefix);
  }

  /** The program exits with status 1 exactly when every scanned id is null or empty, so in particular on an empty list. */
  lemma ExitsWhenNoUsableId(args: seq<string>, broadcasts: seq<LiveBroadcast>, videos: seq<Video>)
    ensures var ids := if |args| == 1 then VideoIds(videos) else BroadcastIds(broadcasts);
      Report(Scan(ids)).Exited? <==> SkippedBefore(ids, |ids|)
  {
    var ids := if |args| == 1 then VideoIds(videos) else BroadcastIds(broadcasts);
    ScanNotFound(ids);
  }

  /** A later usable id does not win over an earlier one. */
  lemma FirstUsableWins()
    ensures Scan(VideoIds([
      Video(Some(LiveStreamingDetails(None))),
      Video(Some(LiveStreamingDetails(Some("")))),
      Video(Some(LiveStreamingDetails(Some("chat-1")))),
      Video(Some(LiveStreamingDetails(Some("chat-2"))))])) == Found("chat-1")
  {
    var ids := VideoIds([
      Video(Some(LiveStreamingDetails(None))),
      Video(Some(LiveStreamingDetails(Some("")))),
      Video(Some(LiveStreamingDetails(Some("chat-1")))),
      Video(Some(LiveStreamingDetails(Some("chat-2"))))]);
    assert ids == [Some(None), Some(Some("")), Some(Some("chat-1")), Some(Some("chat-2"))];
    ScanFound(ids, "chat-1");
    assert SkippedBefore(ids, 2);
  }
}
