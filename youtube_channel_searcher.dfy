/**
 * The channel searcher: an API key from a properties resource, one search
 * request for channels named "GoogleDevelopers" built as a URL string, a
 * status check on the response, and a numbered listing of the channels
 * found. The URL-encoded query and the parsed `items` node of the response
 * body are inputs of the model.
 */
module YouTubeChannelSearcher {
  import opened Wrappers
  import opened DirectHttp
  import Strings
  import SimpleQuickstart

  const SearchTail := "&maxResults=5&order=relevance"

  /** The request URL of `searchChannels` for an already encoded query. */
  function SearchUrl(encodedQuery: string): string
  {
    BaseUrl + SearchPath + encodedQuery + SearchTail
  }

  /** The query parameters the URL carries, in order. */
  function Parameters(encodedQuery: string): seq<string>
  {
    ["part=snippet", "type=channel", "q=" + encodedQuery, "maxResults=5", "order=relevance"]
  }

  /** The literal tail, cut at the parameter boundaries. */
  lemma TailPieces()
    ensures SearchTail == "&" + "maxResults=5" + "&" + "order=relevance"
  {
  }

  /**
   * The URL is the search endpoint followed by the five parameters separated
   * by '&'; as the encoder never leaves an '&' in the query, splitting the
   * query string on '&' gives back exactly those parameters.
   */
  lemma SearchUrlParameters(encodedQuery: string)
    ensures SearchUrl(encodedQuery) == BaseUrl + "/search?" + Strings.Join(Parameters(encodedQuery), "&")
    ensures '&' !in encodedQuery ==>
      Strings.Split(SearchUrl(encodedQuery)[|BaseUrl + "/search?"|..], '&') == Parameters(encodedQuery)
  {
    var ps := Parameters(encodedQuery);
    var start := BaseUrl + "/search?";
    PathPieces();
    TailPieces();
    RegroupUrl(BaseUrl, SearchPath, encodedQuery, SearchTail, "/search?", "part=snippet", "type=channel", "q=", "&");
    var head := "part=snippet" + "&" + "type=channel" + "&" + ("q=" + encodedQuery);
    assert head + SearchTail == head + "&" + "maxResults=5" + "&" + "order=relevance";
    Strings.JoinFive("part=snippet", "type=channel", "q=" + encodedQuery, "maxResults=5", "order=relevance", "&");
    var query := Strings.Join(ps, "&");
    assert SearchUrl(encodedQuery) == start + query;
    if '&' !in encodedQuery {
      assert Strings.Free(ps, '&') by {
        assert '&' !in "part=snippet" && '&' !in "type=channel" && '&' !in "q=";
        assert '&' !in "maxResults=5" && '&' !in "order=relevance";
      }
      Strings.SplitJoin(ps, '&');
      assert (start + query)[|start|..] == query;
    }
  }

  /** The searcher's URL is the quickstart's URL with the relevance order added. */
  lemma OrderIsTheOnlyDifference(encodedQuery: string)
    ensures SearchUrl(encodedQuery) == SimpleQuickstart.SearchUrl(encodedQuery) + "&order=relevance"
  {
  }

  datatype Checked = Body(text: string) | StatusError(status: int)

  /** Only status 200 lets the body through. */
  function CheckStatus(response: HttpResponse): (r: Checked)
    ensures r.Body? <==> response.status == 200
    ensures r.Body? ==> r.text == response.body
    ensures r.StatusError? ==> r.status == response.status
  {
    if response.status != 200 then StatusError(response.status) else Body(response.body)
  }

  /**
   * `main`, given the loaded properties, the encoded query, the response to
   * the search request and the `items` node parsed from its body. `request`
   * is the request made, if any.
   */
  method Run(properties: Option<map<string, string>>, encodedQuery: string, response: HttpResponse,
             items: Option<seq<ChannelItem>>) returns (request: Option<Request>, outcome: Outcome)
    ensures !ApiKey(properties).Key? ==> request.None? && outcome == KeyFailed(ApiKey(properties))
    ensures ApiKey(properties).Key? && |ApiKey(properties).value| < ShownKeyLength ==>
      request.None? && outcome == KeyTooShort
    ensures ApiKey(properties).Key? && |ApiKey(properties).value| >= ShownKeyLength ==>
      var key := ApiKey(properties).value;
      && request == Some(Request(SearchUrl(encodedQuery), key))
      && (response.status != 200 ==> outcome == StatusFailed(response.status))
      && (response.status == 200 ==>
        outcome.Done? && outcome.maskedKey == key[..ShownKeyLength] + "..." && ListingOf(items, outcome.listing))
  {
    var apiKey := ApiKey(properties);
    if !apiKey.Key? {
      return None, KeyFailed(apiKey);
    }
    var masked := MaskedKey(apiKey.value);
    if masked.None? {
      return None, KeyTooShort;
    }
    var url := BaseUrl + SearchPath + encodedQuery + SearchTail;
    request := Some(Request(url, apiKey.value));
    var checked := CheckStatus(response);
    if checked.StatusError? {
      return request, StatusFailed(checked.status);
    }
    var listing := ListChannels(items);
    outcome := Done(masked.value, listing);
  }
}
