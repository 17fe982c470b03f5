/**
 * The upload listing: the signed-in user's first channel names its uploads
 * playlist, whose items are fetched page by page. The page loop is a
 * do-while: the first request carries the page token "", each later one the
 * previous response's `nextPageToken`, and the loop ends when that token is
 * null. The list responses are a script; a request beyond its end stops the
 * model where the program would go on waiting for the service.
 */
module MyUploads {
  import opened Wrappers

  /** The fields of a playlist item the listing prints. */
  datatype PlaylistItem = PlaylistItem(title: string, videoId: string, publishedAt: string)

  /** One response of the playlist-items list call. */
  datatype PlaylistItemPage = PlaylistItemPage(items: seq<PlaylistItem>, nextPageToken: Option<string>)

  /** A channel, reduced to the id of its uploads playlist. */
  datatype Channel = Channel(uploadsPlaylistId: string)

  /**
   * The requests made (their page tokens), the items gathered, and whether
   * the loop ended on a null token (`complete`) rather than on the end of
   * the script.
   */
  datatype Fetched = Fetched(tokens: seq<string>, items: seq<PlaylistItem>, complete: bool)

  /** The first request's page token. */
  const FirstPageToken := ""

  /** Reference definition of the page loop, one request at a time, starting with `token`. */
  function Fetch(pages: seq<PlaylistItemPage>, token: string): (f: Fetched)
    ensures |f.tokens| >= 1 && f.tokens[0] == token
    ensures f.complete ==> |f.tokens| <= |pages|
    ensures !f.complete ==> |f.tokens| == |pages| + 1
  {
    if pages == [] then Fetched([token], [], false)
    else match pages[0].nextPageToken
      case None => Fetched([token], pages[0].items, true)
      case Some(next) =>
        var rest := Fetch(pages[1..], next);
        Fetched([token] + rest.tokens, pages[0].items + rest.items, rest.complete)
  }

  /** All items of `pages`, in page order. */
  function Concat(pages: seq<PlaylistItemPage>): seq<PlaylistItem>
  {
    if pages == [] then [] else pages[0].items + Concat(pages[1..])
  }

  /** The pages whose responses the loop consumed. */
  function Consumed(pages: seq<PlaylistItemPage>, f: Fetched): seq<PlaylistItemPage>
  {
    if |f.tokens| <= |pages| then pages[..|f.tokens|] else pages
  }

  /** Every request after the first carries the token of the response before it. */
  predicate Threaded(pages: seq<PlaylistItemPage>, tokens: seq<string>)
  {
    forall k :: 0 < k < |tokens| && k <= |pages| ==> pages[k - 1].nextPageToken == Some(tokens[k])
  }

  lemma {:induction false} TokenThreading(pages: seq<PlaylistItemPage>, token: string)
    ensures Threaded(pages, Fetch(pages, token).tokens)
    decreases |pages|
  {
    var f := Fetch(pages, token);
    if pages != [] && pages[0].nextPageToken.Some? {
      var rest := Fetch(pages[1..], pages[0].nextPageToken.value);
      TokenThreading(pages[1..], pages[0].nextPageToken.value);
      forall k | 0 < k < |f.tokens| && k <= |pages| ensures pages[k - 1].nextPageToken == Some(f.tokens[k]) {
        assert f.tokens[k] == rest.tokens[k - 1];
        if k > 1 {
          assert pages[k - 1] == pages[1..][k - 2];
        }
      }
    }
  }

  /** The loop ends on the first response without a next-page token, and only there. */
  lemma {:induction false} StopsAtNullToken(pages: seq<PlaylistItemPage>, token: string)
    ensures var f := Fetch(pages, token);
      && (forall k :: 0 <= k < |f.tokens| - 1 ==> pages[k].nextPageToken.Some?)
      && (f.complete <==> |f.tokens| <= |pages| && pages[|f.tokens| - 1].nextPageToken.None?)
      && (!f.complete ==> forall k :: 0 <= k < |pages| ==> pages[k].nextPageToken.Some?)
    decreases |pages|
  {
    var f := Fetch(pages, token);
    if pages != [] && pages[0].nextPageToken.Some? {
      var rest := Fetch(pages[1..], pages[0].nextPageToken.value);
      StopsAtNullToken(pages[1..], pages[0].nextPageToken.value);
      forall k | 0 <= k < |f.tokens| - 1 ensures pages[k].nextPageToken.Some? {
        if k > 0 { assert pages[k] == pages[1..][k - 1]; }
      }
      if f.complete {
        assert pages[|f.tokens| - 1] == pages[1..][|rest.tokens| - 1];
      } else {
        forall k | 0 <= k < |pages| ensures pages[k].nextPageToken.Some? {
          if k > 0 { assert pages[k] == pages[1..][k - 1]; }
        }
      }
    }
  }

  /** The gathered list is the concatenation of the consumed pages' items, in request order. */
  lemma {:induction false} ItemsAreConcatenation(pages: seq<PlaylistItemPage>, token: string)
    ensures var f := Fetch(pages, token);
      f.items == Concat(Consumed(pages, f))
    decreases |pages|
  {
    var f := Fetch(pages, token);
    if pages == [] {
    } else if pages[0].nextPageToken.None? {
      assert Consumed(pages, f) == [pages[0]];
      assert Concat([pages[0]]) == pages[0].items + Concat([]);
    } else {
      var rest := Fetch(pages[1..], pages[0].nextPageToken.value);
      ItemsAreConcatenation(pages[1..], pages[0].nextPageToken.value);
      assert Consumed(pages, f)[1..] == Consumed(pages[1..], rest);
      assert Consumed(pages, f)[0] == pages[0];
    }
  }

  /** One request of the loop on a scripted response, in terms of `Fetch`. */
  lemma FetchStep(pages: seq<PlaylistItemPage>, i: int, token: string)
    requires 0 <= i < |pages|
    ensures Fetch(pages[i..], token) ==
      match pages[i].nextPageToken
      case None => Fetched([token], pages[i].items, true)
      case Some(next) =>
        var rest := Fetch(pages[i + 1..], next);
        Fetched([token] + rest.tokens, pages[i].items + rest.items, rest.complete)
  {
    assert pages[i..][0] == pages[i];
    assert pages[i..][1..] == pages[i + 1..];
  }

  /** `r` after the requests `tokens` that gathered `items`. */
  function After(tokens: seq<string>, items: seq<PlaylistItem>, r: Fetched): Fetched
  {
    Fetched(tokens + r.tokens, items + r.items, r.complete)
  }

  lemma AfterStep(tokens: seq<string>, items: seq<PlaylistItem>, token: string, page: seq<PlaylistItem>, r: Fetched)
    ensures After(tokens, items, Fetched([token] + r.tokens, page + r.items, r.complete))
      == After(tokens + [token], items + page, r)
  {
    assert tokens + ([token] + r.tokens) == tokens + [token] + r.tokens;
    assert items + (page + r.items) == items + page + r.items;
  }

  /** The do-while page loop of the upload listing. */
  method FetchUploads(pages: seq<PlaylistItemPage>) returns (tokens: seq<string>, items: seq<PlaylistItem>, complete: bool)
    ensures Fetched(tokens, items, complete) == Fetch(pages, FirstPageToken)
  {
    tokens := [];
    items := [];
    var nextToken := FirstPageToken;
    var i := 0;
    assert tokens + Fetch(pages, FirstPageToken).tokens == Fetch(pages, FirstPageToken).tokens;
    assert items + Fetch(pages, FirstPageToken).items == Fetch(pages, FirstPageToken).items;
    while true
      invariant 0 <= i <= |pages|
      invariant Fetch(pages, FirstPageToken) == After(tokens, items, Fetch(pages[i..], nextToken))
      decreases |pages| - i
    {
      if i == |pages| {
        AfterStep(tokens, items, nextToken, [], Fetched([], [], false));
        tokens := tokens + [nextToken];
        complete := false;
        return;
      }
      FetchStep(pages, i, nextToken);
      var page := pages[i];
      match page.nextPageToken
      case None =>
        AfterStep(tokens, items, nextToken, page.items, Fetched([], [], true));
        tokens := tokens + [nextToken];
        items := items + page.items;
        complete := true;
        return;
      case Some(next) =>
        AfterStep(tokens, items, nextToken, page.items, Fetch(pages[i + 1..], next));
        tokens := tokens + [nextToken];
        items := items + page.items;
        nextToken := next;
        i := i + 1;
    }
  }

  /** What the program ends with. */
  datatype Uploads =
    | NoChannelList                           // null channel list: no playlist request
    | ChannelIndexError                       // `get(0)` on an empty channel list
    | Listed(playlistId: string, tokens: seq<string>, total: int, items: seq<PlaylistItem>)
    | Unfinished(playlistId: string, tokens: seq<string>, items: seq<PlaylistItem>)

  /**
   * The program after authorisation, given the channel list response's
   * items and the scripted playlist-item pages.
   */
  method ListUploads(channels: Option<seq<Channel>>, pages: seq<PlaylistItemPage>) returns (result: Uploads)
    ensures channels.None? <==> result.NoChannelList?
    ensures channels == Some([]) <==> result.ChannelIndexError?
    ensures channels.Some? && channels.value != [] ==>
      var f := Fetch(pages, FirstPageToken);
      if f.complete then result == Listed(channels.value[0].uploadsPlaylistId, f.tokens, |f.items|, f.items)
      else result == Unfinished(channels.value[0].uploadsPlaylistId, f.tokens, f.items)
  {
    if channels.None? {
      return NoChannelList;
    }
    if |channels.value| == 0 {
      return ChannelIndexError;
    }
    var uploadPlaylistId := channels.value[0].uploadsPlaylistId;
    var tokens, items, complete := FetchUploads(pages);
    if complete {
      result := Listed(uploadPlaylistId, tokens, |items|, items);
    } else {
      result := Unfinished(uploadPlaylistId, tokens, items);
    }
  }

  /** A listing made of three pages: two tokens threaded and every item gathered in order. */
  lemma ThreePages(a: PlaylistItem, b: PlaylistItem, c: PlaylistItem)
    ensures Fetch([PlaylistItemPage([a, b], Some("p2")), PlaylistItemPage([], Some("p3")), PlaylistItemPage([c], None)], FirstPageToken)
      == Fetched(["", "p2", "p3"], [a, b, c], true)
  {
    var pages := [PlaylistItemPage([a, b], Some("p2")), PlaylistItemPage([], Some("p3")), PlaylistItemPage([c], None)];
    assert Fetch(pages[2..], "p3") == Fetched(["p3"], [c], true);
    assert Fetch(pages[1..], "p2") == Fetched(["p2", "p3"], [c], true);
  }
}
