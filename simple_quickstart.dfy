/**
 * The simple quickstart: the same key handling and listing as the channel
 * searcher, but a URL without the order parameter and no status check: the
 * body of whatever response arrives is parsed. The URL-encoded query and the
 * parsed `items` node of the response body are inputs of the model.
 */
module SimpleQuickstart {
  import opened Wrappers
  import opened DirectHttp
  import Strings

  const SearchTail := "&maxResults=5"

  /** The request URL of `searchChannels` for an already encoded query. */
  function SearchUrl(encodedQuery: string): string
  {
    BaseUrl + SearchPath + encodedQuery + SearchTail
  }

  /** The query parameters the URL carries, in order; there is no `order`. */
  function Parameters(encodedQuery: string): seq<string>
  {
    ["part=snippet", "type=channel", "q=" + encodedQuery, "maxResults=5"]
  }

  /** The literal tail, cut at the parameter boundaries. */
  lemma TailPieces()
    ensures SearchTail == "&" + "maxResults=5"
  {
  }

  /** The URL is the search endpoint followed by the four parameters separated by '&', and splitting gives them back. */
  lemma SearchUrlParameters(encodedQuery: string)
    ensures SearchUrl(encodedQuery) == BaseUrl + "/search?" + Strings.Join(Parameters(encodedQuery), "&")
    ensures '&' !in encodedQuery ==>
      Strings.Split(SearchUrl(encodedQuery)[|BaseUrl + "/search?"|..], '&') == Parameters(encodedQuery)
  {
    var ps := Parameters(encodedQuery);
    var start := BaseUrl + "/search?";
    PathPieces();
    TailPieces();
    RegroupUrl(BaseUrl, SearchPath, encodedQuery, SearchTail, "/search?", "part=snippet", "type=channel", "q=", "&");
    var head := "part=snippet" + "&" + "type=channel" + "&" + ("q=" + encodedQuery);
    assert head + SearchTail == head + "&" + "maxResults=5";
    Strings.JoinFour("part=snippet", "type=channel", "q=" + encodedQuery, "maxResults=5", "&");
    var query := Strings.Join(ps, "&");
    assert SearchUrl(encodedQuery) == start + query;
    if '&' !in encodedQuery {
      assert Strings.Free(ps, '&') by {
        assert '&' !in "part=snippet" && '&' !in "type=channel" && '&' !in "q=" && '&' !in "maxResults=5";
      }
      Strings.SplitJoin(ps, '&');
      assert (start + query)[|start|..] == query;
    }
  }

  /**
   * `main`, given the loaded properties, the encoded query, the response to
   * the search request and the `items` node parsed from its body. The status
   * is never looked at.
   */
  method Run(properties: Option<map<string, string>>, encodedQuery: string, response: HttpResponse,
             items: Option<seq<ChannelItem>>) returns (request: Option<Request>, outcome: Outcome)
    ensures !ApiKey(properties).Key? ==> request.None? && outcome == KeyFailed(ApiKey(properties))
    ensures ApiKey(properties).Key? && |ApiKey(properties).value| < ShownKeyLength ==>
      request.None? && outcome == KeyTooShort
    ensures ApiKey(properties).Key? && |ApiKey(properties).value| >= ShownKeyLength ==>
      var key := ApiKey(properties).value;
      && request == Some(Request(SearchUrl(encodedQuery), key))
      && outcome.Done? && outcome.maskedKey == key[..ShownKeyLength] + "..."
      && ListingOf(items, outcome.listing)
  {
    var apiKey := ApiKey(properties);
    if !apiKey.Key? {
      return None, KeyFailed(apiKey);
    }
    var masked := MaskedKey(apiKey.value);
    if masked.None? {
      return None, KeyTooShort;
    }
    var url := BaseUrl + SearchPath + encodedQuery + SearchTail;
    request := Some(Request(url, apiKey.value));
    var listing := ListChannels(items);
    outcome := Done(masked.value, listing);
  }
}
