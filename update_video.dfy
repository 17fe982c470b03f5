/**
 * Adding a keyword tag to a video: the video id and the tag are read from
 * the console, the video's snippet is looked up, and the tag is appended to
 * the snippet's tag list, which is created first when the snippet has none.
 * The snippet is an object updated in place; the lookup response is the
 * sequence of snippets it returned.
 */
module UpdateVideo {
  import opened Wrappers
  import opened Prompts

  /** The part of a video resource the sample reads and changes. */
  class VideoSnippet {
    var title: string
    var tags: Option<seq<string>>

    constructor (title: string, tags: Option<seq<string>>)
      ensures this.title == title && this.tags == tags
    {
      this.title := title;
      this.tags := tags;
    }
  }

  /** The tags left after appending `tag` to `tags`, a null list counting as a fresh empty one. */
  function WithTag(tags: Option<seq<string>>, tag: string): (r: seq<string>)
    ensures tags.None? ==> r == [tag]
    ensures tags.Some? ==> |r| == |tags.value| + 1 && r[..|tags.value|] == tags.value
    ensures |r| >= 1 && r[|r| - 1] == tag
  {
    tags.GetOr([]) + [tag]
  }

  /** Appending does not look for duplicates: a tag already present is there once more afterwards. */
  lemma DuplicatesKept(tags: seq<string>, tag: string)
    ensures multiset(WithTag(Some(tags), tag))[tag] == multiset(tags)[tag] + 1
  {
    assert WithTag(Some(tags), tag) == tags + [tag];
  }

  /** Appending to the snippet's tag list, creating the list when it is null. */
  method AppendTag(snippet: VideoSnippet, tag: string)
    modifies snippet
    ensures snippet.tags == Some(WithTag(old(snippet.tags), tag))
    ensures snippet.title == old(snippet.title)
  {
    var tags := snippet.tags;
    if tags.None? {
      tags := Some([]);
      snippet.tags := tags;
    }
    tags := Some(tags.value + [tag]);
    snippet.tags := tags;
  }

  /** The tag a console line gives: an empty line means "New Tag". */
  const DefaultTag := "New Tag"

  function TagFromUser(line: string): (tag: string)
    ensures |line| < 1 ==> tag == DefaultTag
    ensures |line| >= 1 ==> tag == line
  {
    OrDefault(line, DefaultTag)
  }

  /** The video id a console line gives: an empty line ends the program with status 1. */
  datatype VideoIdInput = VideoId(id: string) | ExitedOnEmpty(status: int)

  function VideoIdFromUser(line: string): (r: VideoIdInput)
    ensures r.ExitedOnEmpty? <==> line == ""
    ensures r.ExitedOnEmpty? ==> r.status == 1
    ensures r.VideoId? ==> r.id == line && r.id != ""
  {
    if |line| < 1 then ExitedOnEmpty(1) else VideoId(line)
  }

  /** What the program ends with. */
  datatype Outcome =
    | Exited(status: int)            // empty video id
    | NoSuchVideo(videoId: string)   // the lookup returned no video
    | Updated(videoId: string, tag: string)

  /**
   * The program after authorisation, given the two console lines and the
   * snippets the lookup returned. Only the first snippet is changed, and
   * only when there is one.
   */
  method Run(videoIdLine: string, tagLine: string, videos: seq<VideoSnippet>) returns (outcome: Outcome)
    modifies if videos == [] then {} else {videos[0]}
    ensures VideoIdFromUser(videoIdLine).ExitedOnEmpty? ==> outcome == Exited(1)
    ensures VideoIdFromUser(videoIdLine).VideoId? && videos == [] ==> outcome == NoSuchVideo(videoIdLine)
    ensures VideoIdFromUser(videoIdLine).VideoId? && videos != [] ==>
      && outcome == Updated(videoIdLine, TagFromUser(tagLine))
      && videos[0].tags == Some(WithTag(old(videos[0].tags), TagFromUser(tagLine)))
      && videos[0].title == old(videos[0].title)
    ensures !outcome.Updated? ==> videos == [] || unchanged(videos[0])
  {
    var input := VideoIdFromUser(videoIdLine);
    if input.ExitedOnEmpty? {
      return Exited(input.status);
    }
    var videoId := input.id;
    var tag := TagFromUser(tagLine);
    if |videos| == 0 {
      return NoSuchVideo(videoId);
    }
    AppendTag(videos[0], tag);
    outcome := Updated(videoId, tag);
  }
}
