/**
 * What the two direct-HTTP programs (the channel searcher and the simple
 * quickstart) share: reading and trimming the API key, the masked key
 * banner, the truncated description and the numbered channel listing.
 */
module DirectHttp {
  import opened Wrappers

  // ---------------------------------------------------------------------------
  // Java's String.trim: every character up to U+0020 counts as blank.

  predicate Blank(c: char)
  {
    c <= ' '
  }

  /** How many blanks open `s`. */
  function LeadingBlanks(s: string): (n: nat)
    ensures n <= |s|
    ensures forall k :: 0 <= k < n ==> Blank(s[k])
    ensures n < |s| ==> !Blank(s[n])
  {
    if s != [] && Blank(s[0]) then 1 + LeadingBlanks(s[1..]) else 0
  }

  /** How many blanks close `s`. */
  function TrailingBlanks(s: string): (n: nat)
    ensures n <= |s|
    ensures forall k :: |s| - n <= k < |s| ==> Blank(s[k])
    ensures n < |s| ==> !Blank(s[|s| - n - 1])
  {
    if s != [] && Blank(s[|s| - 1]) then 1 + TrailingBlanks(s[..|s| - 1]) else 0
  }

  /** `s` without its leading and trailing blanks. */
  function Trim(s: string): string
  {
    var rest := s[LeadingBlanks(s)..];
    rest[..|rest| - TrailingBlanks(rest)]
  }

  /**
   * The trimmed string is a piece of `s` with only blanks cut off on either
   * side, and it neither starts nor ends with a blank.
   */
  lemma TrimShape(s: string)
    ensures exists i, j ::
      && 0 <= i <= j <= |s| && s[i..j] == Trim(s)
      && (forall k :: 0 <= k < i ==> Blank(s[k]))
      && (forall k :: j <= k < |s| ==> Blank(s[k]))
    ensures Trim(s) != "" ==> !Blank(Trim(s)[0]) && !Blank(Trim(s)[|Trim(s)| - 1])
  {
    var i := LeadingBlanks(s);
    var rest := s[i..];
    var j := i + |rest| - TrailingBlanks(rest);
    assert s[i..j] == rest[..|rest| - TrailingBlanks(rest)];
    forall k | j <= k < |s| ensures Blank(s[k]) {
      assert s[k] == rest[k - i];
    }
  }

  /** A string that is blank through and through trims to "". */
  lemma TrimAllBlank(s: string)
    ensures Trim(s) == "" <==> forall k :: 0 <= k < |s| ==> Blank(s[k])
  {
    TrimShape(s);
    if Trim(s) == "" {
      var i, j :| 0 <= i <= j <= |s| && s[i..j] == Trim(s)
        && (forall k :: 0 <= k < i ==> Blank(s[k]))
        && (forall k :: j <= k < |s| ==> Blank(s[k]));
      assert i == j;
    } else {
      assert !Blank(s[LeadingBlanks(s)]);
    }
  }

  /** Trimming twice is trimming once. */
  lemma TrimIdempotent(s: string)
    ensures Trim(Trim(s)) == Trim(s)
  {
    var t := Trim(s);
    TrimShape(s);
    if t != "" {
      assert LeadingBlanks(t) == 0;
      assert TrailingBlanks(t) == 0;
      assert t[0..] == t;
      assert t[..|t|] == t;
    }
  }

  // ---------------------------------------------------------------------------
  // The API key

  const ApiKeyProperty := "youtube.apikey"

  datatype KeyResult =
    | Key(value: string)
    | PropertiesFileMissing    // the resource youtube.properties is absent
    | ApiKeyNotSet             // the property is missing or blank

  /**
   * `getApiKey`, given the loaded properties (`None` when the properties
   * resource cannot be opened).
   */
  function ApiKey(properties: Option<map<string, string>>): (r: KeyResult)
    ensures r == PropertiesFileMissing <==> properties.None?
    ensures r == ApiKeyNotSet <==>
      (properties.Some? && (ApiKeyProperty !in properties.value || Trim(properties.value[ApiKeyProperty]) == ""))
    ensures r.Key? ==>
      && properties.Some? && ApiKeyProperty in properties.value
      && r.value == Trim(properties.value[ApiKeyProperty]) && r.value != ""
  {
    match properties
    case None => PropertiesFileMissing
    case Some(props) =>
      if ApiKeyProperty !in props || Trim(props[ApiKeyProperty]) == "" then ApiKeyNotSet
      else Key(Trim(props[ApiKeyProperty]))
  }

  /** An accepted key has no blank at either end and survives a second trim. */
  lemma AcceptedKeyIsTrimmed(properties: Option<map<string, string>>)
    requires ApiKey(properties).Key?
    ensures var key := ApiKey(properties).value;
      !Blank(key[0]) && !Blank(key[|key| - 1]) && Trim(key) == key
  {
    var raw := properties.value[ApiKeyProperty];
    TrimShape(raw);
    TrimIdempotent(raw);
  }

  /** Characters of the key shown in the banner. */
  const ShownKeyLength := 10

  /**
   * The banner's view of the key: its first ten characters and "...";
   * `None` is the StringIndexOutOfBoundsException `substring(0, 10)` throws
   * for a shorter key.
   */
  function MaskedKey(key: string): (r: Option<string>)
    ensures r.None? <==> |key| < ShownKeyLength
    ensures r.Some? ==>
      && |r.value| == ShownKeyLength + 3
      && r.value[..ShownKeyLength] == key[..ShownKeyLength]
      && r.value[ShownKeyLength..] == "..."
  {
    if |key| < ShownKeyLength then None else Some(key[..ShownKeyLength] + "...")
  }

  // ---------------------------------------------------------------------------
  // The listing

  const DescriptionLimit := 100
  const Ellipsis := "..."

  /** A description longer than the limit is cut to the limit and marked with "...". */
  function Abbreviate(description: string): (r: string)
    ensures |description| <= DescriptionLimit ==> r == description
    ensures |description| > DescriptionLimit ==>
      |r| == DescriptionLimit + |Ellipsis|
      && r[..DescriptionLimit] == description[..DescriptionLimit]
      && r[DescriptionLimit..] == Ellipsis
  {
    if |description| > DescriptionLimit then description[..DescriptionLimit] + Ellipsis else description
  }

  /** A shown description is at most 103 characters long and opens like the original. */
  lemma AbbreviateBounds(description: string)
    ensures |Abbreviate(description)| <= DescriptionLimit + |Ellipsis|
    ensures var n := if |description| < DescriptionLimit then |description| else DescriptionLimit;
      n <= |Abbreviate(description)| && Abbreviate(description)[..n] == description[..n]
  {
  }

  /** The fields of one search result the programs print. */
  datatype ChannelItem = ChannelItem(channelId: string, title: string, description: string, publishedAt: string)

  /** One printed block: its 1-based number and the fields shown. */
  datatype ChannelEntry = ChannelEntry(number: int, channelId: string, title: string, description: string, publishedAt: string)

  datatype Listing = NoChannelsFound | Channels(entries: seq<ChannelEntry>)

  /**
   * `listing` is what `main` shows for the parsed `items` node (`None` when
   * the node is absent): the not-found message for no items, otherwise one
   * block per item, numbered from 1 in item order, its description
   * abbreviated.
   */
  predicate ListingOf(items: Option<seq<ChannelItem>>, listing: Listing)
  {
    && (listing.NoChannelsFound? <==> items.None? || items.value == [])
    && (listing.Channels? ==>
      && items.Some? && |listing.entries| == |items.value|
      && forall i :: 0 <= i < |items.value| ==>
        var item := items.value[i];
        listing.entries[i] == ChannelEntry(i + 1, item.channelId, item.title, Abbreviate(item.description), item.publishedAt))
  }

  /** The listing loop of `main`. */
  method ListChannels(items: Option<seq<ChannelItem>>) returns (listing: Listing)
    ensures ListingOf(items, listing)
  {
    if items.None? || |items.value| == 0 {
      return NoChannelsFound;
    }
    var entries: seq<ChannelEntry> := [];
    for i := 0 to |items.value|
      invariant |entries| == i
      invariant forall k :: 0 <= k < i ==>
        var item := items.value[k];
        entries[k] == ChannelEntry(k + 1, item.channelId, item.title, Abbreviate(item.description), item.publishedAt)
    {
      var item := items.value[i];
      var description := if |item.description| > DescriptionLimit
        then item.description[..DescriptionLimit] + Ellipsis
        else item.description;
      entries := entries + [ChannelEntry(i + 1, item.channelId, item.title, description, item.publishedAt)];
    }
    return Channels(entries);
  }

  /** A listing is determined by the items: numbering and content leave no choice. */
  lemma ListingUnique(items: Option<seq<ChannelItem>>, a: Listing, b: Listing)
    requires ListingOf(items, a) && ListingOf(items, b)
    ensures a == b
  {
    if a.Channels? {
      assert a.entries == b.entries;
    }
  }

  const BaseUrl := "https://www.googleapis.com/youtube/v3"

  /** The path and first parameters of both programs' search URL, up to the query. */
  const SearchPath := "/search?part=snippet&type=channel&q="

  /** The literal path, cut at the parameter boundaries. */
  lemma PathPieces()
    ensures SearchPath == "/search?" + "part=snippet" + "&" + "type=channel" + "&" + "q="
  {
  }

  /**
   * The URL `base + path + query + tail` regrouped around its query
   * parameter, for a path that ends with two parameters and the name of the
   * query parameter.
   */
  lemma RegroupUrl(base: string, path: string, query: string, tail: string, s: string,
                   p1: string, p2: string, qp: string, amp: string)
    requires path == s + p1 + amp + p2 + amp + qp
    ensures base + path + query + tail == base + s + (p1 + amp + p2 + amp + (qp + query) + tail)
  {
  }

  /** A request as it leaves the program: the URL and the key the request initializer adds to it. */
  datatype Request = Request(url: string, key: string)

  /** The status and body of the search response. */
  datatype HttpResponse = HttpResponse(status: int, body: string)

  /** What `main` ends with. */
  datatype Outcome =
    | KeyFailed(error: KeyResult)     // getApiKey threw
    | KeyTooShort                     // substring(0, 10) threw; no request was made
    | StatusFailed(status: int)       // the status check threw
    | Done(maskedKey: string, listing: Listing)
}
