# YouTube API samples: a verified model of their logic

The repository is a collection of small Java programs that use the YouTube
Data API. Most of them build one request, send it and print the answer; the
logic worth stating is a handful of sequential pieces spread over twelve
programs, and this project models those pieces in Dafny:

- the live-chat sample: the display line of one chat message (`buildOutput`)
  and the poll that passes each response's page token and polling interval
  to the next retrieval (`listChatMessages`);
- the live-chat-id lookup: the first non-null, non-empty id among the active
  broadcasts or among the listed videos, chosen by the number of command-line
  arguments, with exit status 1 when there is none;
- the upload listing: the do-while page loop that gathers a playlist's items;
- the tag update: appending a keyword tag to a possibly-null tag list;
- the four localization samples: the upsert into a possibly-null localization
  map, the default language setter, the console prompts with their defaults,
  and parsing of the action name;
- the two direct-HTTP programs: trimming and checking the API key, the search
  URL, the status check, the masked key banner, description truncation and
  the numbered listing;
- the keyword search (only `youtube#video` results are listed) and the
  location search (video ids joined with `,` for a second lookup).

Modelling conventions:

- Java `null` is `Option.None`.
- A console line is a parameter; an empty line is the only case the prompts
  distinguish.
- A service response is a parameter. For the two paginated loops it is a
  scripted sequence of responses.
- An exception the program catches, and `System.exit`, become constructors of
  an outcome datatype.
- What a program prints is returned as structured values (entries, lines,
  outcomes), not as console text.
- Objects the source updates in place (a video snippet, a video, playlist,
  channel or channel section resource) are classes. Each method that updates
  one states the object's whole new state.

Files:

- `wrappers.dfy`: `Option`.
- `strings.dfy`: join, split, and count on strings.
- `prompts.dfy`: a line or its default.
- `list_live_chat_messages.dfy`
- `get_live_chat_id.dfy`
- `my_uploads.dfy`
- `update_video.dfy`
- `localizations.dfy`: what the four localization samples share.
- One file per localization sample.
- `direct_http.dfy`: what the two direct-HTTP programs share.
- `youtube_channel_searcher.dfy`
- `simple_quickstart.dfy`
- `search.dfy`
- `geolocation_search.dfy`

Source paths in the table are relative to the repository root.

## Model

| member | source | states |
|---|---|---|
| `Prompts.OrDefaultStable` | java/com/google/api/services/samples/youtube/cmdline/data/UpdateVideo.java:128-134 | a prompt with a non-empty default never yields "", and feeding its result back through it changes nothing |
| `ListLiveChatMessages.CollectRoles` | java/com/google/api/services/samples/youtube/cmdline/live/ListLiveChatMessages.java:180-189 | the `roles` list built by the three `if`s is `Roles(author)`: each tag if and only if its flag, in source order, and no other tag (`RoleTagsRule`) |
| `ListLiveChatMessages.AppendRoleSection` | java/com/google/api/services/samples/youtube/cmdline/live/ListLiveChatMessages.java:190-198 | the loop with the reassigned delimiter appends `" ("`, the tags joined by `", "` and `")"`, or nothing when there are no roles |
| `ListLiveChatMessages.BuildOutput` | java/com/google/api/services/samples/youtube/cmdline/live/ListLiveChatMessages.java:170-204 | the buffer built step by step equals the reference line `FormatMessage` |
| `ListLiveChatMessages.FormatParts` | java/com/google/api/services/samples/youtube/cmdline/live/ListLiveChatMessages.java:174-203 | the line is the super-chat prefix, the display name, the role section and the message suffix, in that order |
| `ListLiveChatMessages.SuperChatPrefixRule` | java/com/google/api/services/samples/youtube/cmdline/live/ListLiveChatMessages.java:175-179 | with super-chat details the line opens with the amount followed directly by "SUPERCHAT RECEIVED FROM " and then the name; without them it opens with the name |
| `ListLiveChatMessages.RoleTagsRule` | java/com/google/api/services/samples/youtube/cmdline/live/ListLiveChatMessages.java:180-189 | each tag is present if and only if its flag is true, the tags are in the order OWNER, MODERATOR, SPONSOR, and no other string occurs |
| `ListLiveChatMessages.NoRolesNoSection` | java/com/google/api/services/samples/youtube/cmdline/live/ListLiveChatMessages.java:190 | without any role flag the line has no parenthesised section |
| `ListLiveChatMessages.RoleSectionRule` | java/com/google/api/services/samples/youtube/cmdline/live/ListLiveChatMessages.java:190-198 | with roles the section is " (" + tags joined by ", " + ")"; its inside holds n - 1 commas for n tags, and splitting it on ',' gives the first tag and then every other tag behind one blank |
| `ListLiveChatMessages.MessageSuffixRule` | java/com/google/api/services/samples/youtube/cmdline/live/ListLiveChatMessages.java:199-203 | text follows the head if and only if the message is non-null and non-empty, and the text is exactly ": " + message |
| `ListLiveChatMessages.AliceExample` | java/com/google/api/services/samples/youtube/cmdline/live/ListLiveChatMessages.java:170-204 | an owner and sponsor saying "hello" gives "Alice (OWNER, SPONSOR): hello" |
| `ListLiveChatMessages.BobExample` | java/com/google/api/services/samples/youtube/cmdline/live/ListLiveChatMessages.java:175-202 | a super chat with an empty message and no roles gives the amount, the banner and the name, with no suffix |
| `ListLiveChatMessages.OneLinePerMessage` | java/com/google/api/services/samples/youtube/cmdline/live/ListLiveChatMessages.java:139-147 | a page prints exactly one line per message, and line i is the line of message i |
| `ListLiveChatMessages.PrintPage` | java/com/google/api/services/samples/youtube/cmdline/live/ListLiveChatMessages.java:139-147 | the `for` loop over the page's messages yields `PageLines(items)` |
| `ListLiveChatMessages.Poll` | java/com/google/api/services/samples/youtube/cmdline/live/ListLiveChatMessages.java:118-160 | the self-rescheduling retrieval makes at most one call per scripted response, and at least one when there is a response |
| `ListLiveChatMessages.PollStep` | java/com/google/api/services/samples/youtube/cmdline/live/ListLiveChatMessages.java:129-157 | a failed retrieval ends polling with no lines; a page without a usable interval prints its lines and ends; otherwise the rest is polled with the page's token and interval |
| `ListLiveChatMessages.PollChatMessages` | java/com/google/api/services/samples/youtube/cmdline/live/ListLiveChatMessages.java:94-160 | the sequential loop over the scripted responses makes the same calls, prints the same lines and stops for the same reason as `Poll(script, None, 0)` |
| `ListLiveChatMessages.FirstRequest` | java/com/google/api/services/samples/youtube/cmdline/live/ListLiveChatMessages.java:94 | the first retrieval uses a null page token and delay 0 |
| `ListLiveChatMessages.TokenThreading` | java/com/google/api/services/samples/youtube/cmdline/live/ListLiveChatMessages.java:150-153 | call k + 1 exists only after a rescheduling response k, and it uses that response's `nextPageToken` and `pollingIntervalMillis` |
| `ListLiveChatMessages.StopReason` | java/com/google/api/services/samples/youtube/cmdline/live/ListLiveChatMessages.java:129-157 | polling stops on the end of the script after one call per response, or on a failed retrieval, or on a response that cannot be rescheduled, and that response is the last one used |
| `ListLiveChatMessages.FailureEndsPolling` | java/com/google/api/services/samples/youtube/cmdline/live/ListLiveChatMessages.java:129-157 | a failure after k rescheduling responses ends polling after exactly k + 1 calls: the try around the recursive call stops everything |
| `ListLiveChatMessages.LinesOfRetrievedPages` | java/com/google/api/services/samples/youtube/cmdline/live/ListLiveChatMessages.java:139-153 | the lines printed are those of the pages actually retrieved, in order; an empty page adds none and still reschedules |
| `ListLiveChatMessages.CursorScenario` | java/com/google/api/services/samples/youtube/cmdline/live/ListLiveChatMessages.java:131-153 | three pages: the calls carry no token, then "T1" after 5000 ms, then "T2" after 3000 ms |
| `ListLiveChatMessages.SecondCallFails` | java/com/google/api/services/samples/youtube/cmdline/live/ListLiveChatMessages.java:129-157 | a failure on the second call prevents a third |
| `GetLiveChatId.BroadcastIds` | java/com/google/api/services/samples/youtube/cmdline/live/GetLiveChatId.java:110-111 | one id per broadcast, in list order; a missing snippet is marked |
| `GetLiveChatId.VideoIds` | java/com/google/api/services/samples/youtube/cmdline/live/GetLiveChatId.java:134-135 | one id per video, in list order; missing live-streaming details are marked |
| `GetLiveChatId.Scan` | java/com/google/api/services/samples/youtube/cmdline/live/GetLiveChatId.java:110-117 | the scan never returns "" as an id |
| `GetLiveChatId.ScanFound` | java/com/google/api/services/samples/youtube/cmdline/live/GetLiveChatId.java:110-115 | the scan returns `id` if and only if `id` is non-empty and is the first usable id, with every earlier item present and carrying a null or empty id |
| `GetLiveChatId.ScanNotFound` | java/com/google/api/services/samples/youtube/cmdline/live/GetLiveChatId.java:117 | the scan returns null if and only if every item is present and carries a null or empty id, so also on an empty list |
| `GetLiveChatId.ScanSkip` | java/com/google/api/services/samples/youtube/cmdline/live/GetLiveChatId.java:112 | an item with a null or empty id is passed over |
| `GetLiveChatId.LiveChatIdOfBroadcasts` | java/com/google/api/services/samples/youtube/cmdline/live/GetLiveChatId.java:101-118 | the broadcast overload's loop with its early return gives the reference scan of the broadcasts' ids |
| `GetLiveChatId.LiveChatIdOfVideos` | java/com/google/api/services/samples/youtube/cmdline/live/GetLiveChatId.java:127-142 | the video overload's loop with its early return gives the reference scan of the videos' ids |
| `GetLiveChatId.SourceFor` | java/com/google/api/services/samples/youtube/cmdline/live/GetLiveChatId.java:71-73 | exactly one argument selects the video overload with that argument as video id; any other count selects the broadcasts |
| `GetLiveChatId.Report` | java/com/google/api/services/samples/youtube/cmdline/live/GetLiveChatId.java:74-79 | a null id exits with status 1 and the not-found message, and only a null id does; a found id is printed after "Live chat id: " |
| `GetLiveChatId.Run` | java/com/google/api/services/samples/youtube/cmdline/live/GetLiveChatId.java:71-92 | the argument count picks the overload and the outcome is the report of its scan |
| `GetLiveChatId.ExitsWhenNoUsableId` | java/com/google/api/services/samples/youtube/cmdline/live/GetLiveChatId.java:74-79 | the program exits with status 1 if and only if every scanned item carries a null or empty id |
| `GetLiveChatId.FirstUsableWins` | java/com/google/api/services/samples/youtube/cmdline/live/GetLiveChatId.java:134-139 | a null and an empty id are passed over, and a later usable id does not win over an earlier one |
| `MyUploads.Fetch` | java/com/google/api/services/samples/youtube/cmdline/data/MyUploads.java:93-104 | the first request carries the page token ""; at least one request is made; a completed loop used no more responses than the script has |
| `MyUploads.TokenThreading` | java/com/google/api/services/samples/youtube/cmdline/data/MyUploads.java:98-103 | every later request carries the previous response's `nextPageToken` |
| `MyUploads.StopsAtNullToken` | java/com/google/api/services/samples/youtube/cmdline/data/MyUploads.java:97-104 | the loop ends on the first response without a next-page token, and only there |
| `MyUploads.ItemsAreConcatenation` | java/com/google/api/services/samples/youtube/cmdline/data/MyUploads.java:101 | the gathered list is the concatenation of the consumed pages' items, in request order |
| `MyUploads.FetchStep` | java/com/google/api/services/samples/youtube/cmdline/data/MyUploads.java:97-104 | one request on a scripted response either stops on a null token or goes on with the response's token |
| `MyUploads.FetchUploads` | java/com/google/api/services/samples/youtube/cmdline/data/MyUploads.java:93-104 | the do-while loop makes the requests and gathers the items of the reference `Fetch` |
| `MyUploads.ListUploads` | java/com/google/api/services/samples/youtube/cmdline/data/MyUploads.java:73-107 | a null channel list makes no playlist request; an empty one fails at `get(0)`; otherwise the first channel's uploads are listed, and the printed total is the number of items gathered |
| `MyUploads.ThreePages` | java/com/google/api/services/samples/youtube/cmdline/data/MyUploads.java:93-104 | three pages: tokens "", "p2", "p3", and every item gathered in order, an empty middle page included |
| `UpdateVideo.WithTag` | java/com/google/api/services/samples/youtube/cmdline/data/UpdateVideo.java:90-95 | a null list becomes exactly [tag]; otherwise the old tags are kept in order, the length grows by one and the tag is last |
| `UpdateVideo.DuplicatesKept` | java/com/google/api/services/samples/youtube/cmdline/data/UpdateVideo.java:95 | a tag already present is there once more afterwards: duplicates are not rejected |
| `UpdateVideo.AppendTag` | java/com/google/api/services/samples/youtube/cmdline/data/UpdateVideo.java:90-95 | the snippet's tag list becomes `WithTag` of the old one, and the title is unchanged |
| `UpdateVideo.TagFromUser` | java/com/google/api/services/samples/youtube/cmdline/data/UpdateVideo.java:122-135 | an empty line gives "New Tag"; any other line is returned unchanged |
| `UpdateVideo.VideoIdFromUser` | java/com/google/api/services/samples/youtube/cmdline/data/UpdateVideo.java:140-155 | an empty line exits with status 1, if and only if the line is empty; any other line is the id |
| `UpdateVideo.Run` | java/com/google/api/services/samples/youtube/cmdline/data/UpdateVideo.java:65-95 | an empty id exits with status 1; an empty lookup result returns without any change; otherwise only the first video's tags change |
| `Localizations.Upsert` | java/com/google/api/services/samples/youtube/cmdline/data/VideoLocalizations.java:134-142 | a null map becomes a fresh map holding only `language`; otherwise `language` is added or overwritten and every other key keeps its entry |
| `Localizations.UpsertIdempotent` | java/com/google/api/services/samples/youtube/cmdline/data/VideoLocalizations.java:142 | putting the same entry twice changes nothing the second time |
| `Localizations.UpsertOverwrites` | java/com/google/api/services/samples/youtube/cmdline/data/VideoLocalizations.java:142 | a second put for the same language wins over the first |
| `Localizations.UpsertCommutes` | java/com/google/api/services/samples/youtube/cmdline/data/VideoLocalizations.java:142 | puts for different languages commute |
| `Localizations.Metadata` | java/com/google/api/services/samples/youtube/cmdline/data/VideoLocalizations.java:242-257 | an empty line gives `type + "(localized)"`; any other line is returned unchanged |
| `Localizations.DefaultLanguage` | java/com/google/api/services/samples/youtube/cmdline/data/VideoLocalizations.java:262-278 | an empty line gives "en"; any other line is returned unchanged |
| `Localizations.LocalizedLanguage` | java/com/google/api/services/samples/youtube/cmdline/data/VideoLocalizations.java:283-298 | an empty line gives "de"; any other line is returned unchanged |
| `Localizations.ToUpperAscii` | java/com/google/api/services/samples/youtube/cmdline/data/VideoLocalizations.java:75 | same length, and each letter a-z is upper-cased while every other character is kept |
| `Localizations.ToUpperIdempotent` | java/com/google/api/services/samples/youtube/cmdline/data/VideoLocalizations.java:75 | upper-casing twice is upper-casing once |
| `Localizations.ParseAction` | java/com/google/api/services/samples/youtube/cmdline/data/VideoLocalizations.java:75 | an action is returned exactly when the upper-cased line is its name; otherwise the line names no constant |
| `Localizations.ParseActionAnyCase` | java/com/google/api/services/samples/youtube/cmdline/data/VideoLocalizations.java:75 | a name in any letter case parses to its action |
| `Localizations.OfferedSpellingsParse` | java/com/google/api/services/samples/youtube/cmdline/data/VideoLocalizations.java:307-310 | the spellings the prompt offers, 'set', 'get' and 'list', parse to SET, GET and LIST |
| `Localizations.UnknownActionsRefused` | java/com/google/api/services/samples/youtube/cmdline/data/VideoLocalizations.java:75 | an empty line and a misspelt name are refused |
| `Localizations.TitledEntry` | java/com/google/api/services/samples/youtube/cmdline/data/VideoLocalizations.java:139-141 | the entry a video or playlist stores carries exactly the localized title and description |
| `VideoLocalizations.SetVideoLocalization` | java/com/google/api/services/samples/youtube/cmdline/data/VideoLocalizations.java:113-142 | nothing changes for an empty lookup result; otherwise the first video's snippet default language is set and its map gets the upsert |
| `VideoLocalizations.Run` | java/com/google/api/services/samples/youtube/cmdline/data/VideoLocalizations.java:72-88 | an unknown action ends the run; SET uses the prompts' values and their defaults; only SET on a found video changes it |
| `PlaylistLocalizations.SetPlaylistLocalization` | java/com/google/api/services/samples/youtube/cmdline/data/PlaylistLocalizations.java:113-144 | nothing changes for an empty lookup result; otherwise the first playlist's snippet default language is set and its map gets the upsert |
| `PlaylistLocalizations.Run` | java/com/google/api/services/samples/youtube/cmdline/data/PlaylistLocalizations.java:72-88 | as for videos, with the playlist's prompts |
| `ChannelLocalizations.Entry` | java/com/google/api/services/samples/youtube/cmdline/data/ChannelLocalizations.java:141-142 | the channel entry carries only the description |
| `ChannelLocalizations.SetChannelLocalization` | java/com/google/api/services/samples/youtube/cmdline/data/ChannelLocalizations.java:112-143 | nothing changes for an empty lookup result; otherwise the default language goes to the branding settings, the snippet's is unchanged, and the map gets the upsert |
| `ChannelLocalizations.Run` | java/com/google/api/services/samples/youtube/cmdline/data/ChannelLocalizations.java:72-88 | as for videos, with the description prompt only and the branding default language |
| `ChannelSectionLocalizations.Entry` | java/com/google/api/services/samples/youtube/cmdline/data/ChannelSectionLocalizations.java:141-142 | the channel section entry carries only the title |
| `ChannelSectionLocalizations.SetChannelSectionLocalization` | java/com/google/api/services/samples/youtube/cmdline/data/ChannelSectionLocalizations.java:112-143 | nothing changes for an empty lookup result; otherwise the first section's snippet default language is set and its map gets the upsert |
| `ChannelSectionLocalizations.Run` | java/com/google/api/services/samples/youtube/cmdline/data/ChannelSectionLocalizations.java:72-88 | as for videos, with the title prompt only |
| `DirectHttp.LeadingBlanks` | src/main/java/YouTubeChannelSearcher.java:71 | the characters cut at the start by `trim` are all at most U+0020, and the next one is not |
| `DirectHttp.TrailingBlanks` | src/main/java/YouTubeChannelSearcher.java:71 | the characters cut at the end by `trim` are all at most U+0020, and the one before them is not |
| `DirectHttp.TrimShape` | src/main/java/YouTubeChannelSearcher.java:71 | the trimmed string is a piece of the original with only blanks cut off on either side, and it neither starts nor ends with a blank |
| `DirectHttp.TrimAllBlank` | src/main/java/YouTubeChannelSearcher.java:68 | a string trims to "" if and only if every character is blank |
| `DirectHttp.TrimIdempotent` | src/main/java/YouTubeChannelSearcher.java:71 | trimming twice is trimming once |
| `DirectHttp.ApiKey` | src/main/java/YouTubeChannelSearcher.java:60-72 | a missing properties resource, and a key that is absent or blank after trimming, are rejected, each if and only if it happens; an accepted key is the trimmed property and is non-empty |
| `DirectHttp.AcceptedKeyIsTrimmed` | src/main/java/YouTubeChannelSearcher.java:71 | an accepted key has no blank at either end and survives a second trim |
| `DirectHttp.MaskedKey` | src/main/java/YouTubeChannelSearcher.java:105 | a key shorter than 10 characters fails at `substring(0, 10)`; otherwise the banner shows its first 10 characters and "..." |
| `DirectHttp.Abbreviate` | src/main/java/YouTubeChannelSearcher.java:139 | a description of at most 100 characters is shown unchanged; a longer one as its first 100 characters and "..." |
| `DirectHttp.AbbreviateBounds` | src/main/java/YouTubeChannelSearcher.java:139 | a shown description has at most 103 characters and opens like the original |
| `DirectHttp.ListChannels` | src/main/java/YouTubeChannelSearcher.java:121-141 | null or empty items give the not-found message; otherwise one block per item, numbered from 1 in item order, with the description abbreviated |
| `DirectHttp.ListingUnique` | src/main/java/YouTubeChannelSearcher.java:127-141 | the items determine the listing: numbering and content leave no choice |
| `DirectHttp.PathPieces` | src/main/java/YouTubeChannelSearcher.java:83 | the fixed part of the URL, cut at the parameter boundaries |
| `YouTubeChannelSearcher.TailPieces` | src/main/java/YouTubeChannelSearcher.java:83 | the fixed tail, cut at the parameter boundaries |
| `YouTubeChannelSearcher.SearchUrlParameters` | src/main/java/YouTubeChannelSearcher.java:82-83 | the URL is the base URL, "/search?" and the five parameters joined by '&'; for a query without '&', as the URL encoder produces, splitting on '&' gives the parameters back |
| `YouTubeChannelSearcher.OrderIsTheOnlyDifference` | src/main/java/YouTubeChannelSearcher.java:83 | the searcher's URL is the quickstart's URL with "&order=relevance" added |
| `YouTubeChannelSearcher.CheckStatus` | src/main/java/YouTubeChannelSearcher.java:94-98 | the body passes if and only if the status is 200; any other status is an error carrying that status |
| `YouTubeChannelSearcher.Run` | src/main/java/YouTubeChannelSearcher.java:101-141 | a key error and a key shorter than 10 characters make no request; otherwise the request carries the URL and the key, a non-200 status fails, and a 200 response gives the masked key and the listing |
| `SimpleQuickstart.TailPieces` | src/main/java/SimpleQuickstart.java:83 | the fixed tail, cut at the parameter boundary |
| `SimpleQuickstart.SearchUrlParameters` | src/main/java/SimpleQuickstart.java:82-83 | the URL is the base URL, "/search?" and the four parameters joined by '&', with no order parameter; splitting on '&' gives them back |
| `SimpleQuickstart.Run` | src/main/java/SimpleQuickstart.java:91-131 | as for the searcher, but the program never checks the status: every response that reaches it gives the listing of its items (the library's non-2xx exception is left out) |
| `Search.QueryFromUser` | java/com/google/api/services/samples/youtube/cmdline/data/Search.java:121-134 | an empty line gives "YouTube Developers Live"; any other line is returned unchanged |
| `Search.Videos` | java/com/google/api/services/samples/youtube/cmdline/data/Search.java:154-168 | the listing has at most as many entries as there are results |
| `Search.VideosAppend` | java/com/google/api/services/samples/youtube/cmdline/data/Search.java:154-168 | filtering distributes over concatenation, so entries keep the results' order |
| `Search.VideosMembership` | java/com/google/api/services/samples/youtube/cmdline/data/Search.java:160 | an entry is listed if and only if some result of kind "youtube#video" carries it |
| `Search.VideosExtremes` | java/com/google/api/services/samples/youtube/cmdline/data/Search.java:160 | if every result is a video, all are listed; if none is, none is listed |
| `Search.PrettyPrint` | java/com/google/api/services/samples/youtube/cmdline/data/Search.java:143-169 | the no-results message appears if and only if the list is empty, and the loop's entries are the reference `Videos` |
| `Search.Run` | java/com/google/api/services/samples/youtube/cmdline/data/Search.java:83-107 | the request carries the key property, the term or its default, type "video" and 25 results; a null result list skips printing |
| `Search.NoVideosShowsNothing` | java/com/google/api/services/samples/youtube/cmdline/data/Search.java:150-168 | a non-empty list without videos shows neither the no-results message nor any entry |
| `GeolocationSearch.LocationFromUser` | java/com/google/api/services/samples/youtube/cmdline/data/GeolocationSearch.java:176-189 | an empty line gives "37.42307,-122.08427"; any other line is returned unchanged |
| `GeolocationSearch.RadiusFromUser` | java/com/google/api/services/samples/youtube/cmdline/data/GeolocationSearch.java:194-207 | an empty line gives "5km"; any other line is returned unchanged |
| `GeolocationSearch.CollectVideoIds` | java/com/google/api/services/samples/youtube/cmdline/data/GeolocationSearch.java:122-129 | exactly one id per search result, in result order |
| `GeolocationSearch.JoinIds` | java/com/google/api/services/samples/youtube/cmdline/data/GeolocationSearch.java:130-131 | the join fails on a null id, and only then |
| `GeolocationSearch.JoinedIds` | java/com/google/api/services/samples/youtube/cmdline/data/GeolocationSearch.java:130-131 | n ids without commas give n - 1 commas; the list starts with the first id and ends with the last; splitting on ',' gives the ids back |
| `GeolocationSearch.JoinedIdsEnds` | java/com/google/api/services/samples/youtube/cmdline/data/GeolocationSearch.java:130-131 | when, in addition, every id is non-empty, the list neither starts nor ends with a comma (an empty first id would give a leading comma) |
| `GeolocationSearch.NoResultsNoIds` | java/com/google/api/services/samples/youtube/cmdline/data/GeolocationSearch.java:122-131 | an empty result list joins to an empty id list |
| `GeolocationSearch.PrettyPrint` | java/com/google/api/services/samples/youtube/cmdline/data/GeolocationSearch.java:217-241 | the no-results message appears if and only if there is no video, then one entry per video, in order |
| `GeolocationSearch.Run` | java/com/google/api/services/samples/youtube/cmdline/data/GeolocationSearch.java:91-143 | the request carries the key, the three values or their defaults, type "video" and 25 results; a null result list makes no lookup; the lookup carries the joined ids; a null video list skips printing |

## Left out

- Authorisation (OAuth flows, credential storage) and building the clients: library code.
- Every `execute()` call and the HTTP transport. Responses are parameters of
  the model. The library's own exception for a non-2xx response is not
  modelled, so the searcher's status check is reached for any status.
- `SimpleQuickstart.Run` therefore lists the items of any response. In the source, a non-2xx status makes the library throw before `parseAsString`, so nothing would be listed.
- JSON parsing of the direct-HTTP responses and `URLEncoder.encode`. The parsed `items` node and the encoded query are parameters.
- The `Timer` and its thread in the live-chat poll. Retrievals are a scripted
  sequence, so the model ends where the script ends; the source would go on
  polling.
- The "Getting chat messages in … seconds" banner: it formats a floating-point number.
- Console output as text. The model returns structured entries, lines and outcomes.
- This includes the update and lookup responses the localization and tag samples print after the change.
- Stdin at end of input (`readLine` returning null, then a NullPointerException): a console line is always a string here.
- The GET and LIST actions of the localization samples only read and print a resource. The model records that they were requested and with which id.
- The id prompt `getId` has no default and is passed through unchanged.
- Any null intermediate object the source dereferences, outside the modelled cases: the source would throw and the catch-all reports it. Among them:
  - a null snippet, author or chat item list in the live chat;
  - a null snippet in the tag and localization samples;
  - a null result id or kind in the searches;
  - a null item list in a playlist page;
  - a missing `snippet` field in a direct-HTTP item;
  - a null item list returned by a lookup: the tag update, the four localization setters and both live-chat-id scans call methods on it;
  - a null `isChatOwner`, `isChatModerator` or `isChatSponsor` flag in the live chat, which throws when unboxed;
  - null branding settings, or a null channel part inside them, in the channel localization sample.
  - a null `contentDetails`, or null related playlists inside it, on the first channel of the upload listing;
  - a null `snippet` or `contentDetails` on a playlist item, which throws after the total has been printed;
  - a null snippet, thumbnails, recording details or location on a video of the location search;
  - a null snippet or thumbnails on a result of the keyword search.
- A null `displayName` or `amountDisplayString` in the live chat: `StringBuilder.append` would print the text "null". The model takes both as strings.
- The error text of a caught NullPointerException: `GetLiveChatId.Report` records only the `"Throwable: "` prefix of the diagnostic.
- Missing `youtube.properties` in the two search samples: `properties.load(null)` throws. The model takes the loaded properties as a map.
- The recording location of the location search's videos: latitude and longitude are floating-point numbers.
- `Localizations.ToUpperAscii`: upper-cases only ASCII letters. Java's `toUpperCase` also maps other characters, and some of them turn into letters of an action name: the dotless ı becomes I, the long ſ becomes S, and the ligatures ﬅ and ﬆ become ST. So Java accepts "lıst", "ſet" and "liﬆ", and the model refuses them.
- `Localizations.ParseAction` assumes a default locale without Turkic casing. `toUpperCase()` uses the default locale, and under a Turkish or Azeri one "list" becomes "LİST", which names no action. `Localizations.OfferedSpellingsParse` holds only under such a locale.
- `ListLiveChatMessages.Reschedules` accepts any interval that is not negative. In the source, `Timer.schedule` also refuses a delay whose scheduled time `System.currentTimeMillis() + delay` overflows a `long`; the catch ends polling there. The clock is not modelled, so `ListLiveChatMessages.Poll` reschedules on such an interval too.
- Lengths are counted in Dafny characters. Java counts UTF-16 code units, so a description with characters outside the Basic Multilingual Plane may be cut at a different place.
- The prompt helpers, `getApiKey`, truncation and the listing are identical in every copy, and so is the title-and-description entry of the video and playlist samples (PlaylistLocalizations.java, lines 141-143). Each is modelled once, and the table cites one copy:
  - the localization copies in `VideoLocalizations.java`;
  - the direct-HTTP copies in `YouTubeChannelSearcher.java`.
- `Search.QueryFromUser` also stands for the location search's identical `getInputQuery` (GeolocationSearch.java, lines 158-171).
- `ListLiveChatMessages.java` repeats the live-chat-id dispatch and exit of `GetLiveChatId.java` (lines 83-91); `GetLiveChatId.Run` models both.
