/**
 * The live-chat sample: one display line per chat message (`buildOutput`)
 * and the poll that threads each response's page token and polling interval
 * into the next retrieval (`listChatMessages`).
 *
 * The source reschedules itself through a `Timer`; here the retrievals are a
 * scripted sequence of responses, `Poll` is the recursive reading of the
 * self-rescheduling calls, and `PollChatMessages` is the sequential loop
 * proved equal to it.
 */
module ListLiveChatMessages {
  import opened Wrappers
  import Strings

  datatype AuthorDetails = AuthorDetails(
    displayName: string,
    isChatOwner: bool,
    isChatModerator: bool,
    isChatSponsor: bool)

  datatype SuperChatDetails = SuperChatDetails(amountDisplayString: string)

  datatype ChatMessage = ChatMessage(
    displayMessage: Option<string>,
    authorDetails: AuthorDetails,
    superChatDetails: Option<SuperChatDetails>)

  const SuperChatBanner := "SUPERCHAT RECEIVED FROM "
  const RoleDelimiter := ", "

  // ---------------------------------------------------------------------------
  // Formatting one message

  /** The tags of the author's true role flags, in the fixed order OWNER, MODERATOR, SPONSOR. */
  function Roles(author: AuthorDetails): seq<string> {
    (if author.isChatOwner then ["OWNER"] else [])
    + (if author.isChatModerator then ["MODERATOR"] else [])
    + (if author.isChatSponsor then ["SPONSOR"] else [])
  }

  /** Position of a role tag in the fixed order. */
  function RoleRank(tag: string): nat {
    if tag == "OWNER" then 0 else if tag == "MODERATOR" then 1 else 2
  }

  /** The amount and banner in front of a super chat; nothing otherwise. */
  function SuperChatPrefix(superChat: Option<SuperChatDetails>): string {
    match superChat
    case Some(d) => d.amountDisplayString + SuperChatBanner
    case None => ""
  }

  /** " (" + the tags separated by ", " + ")", or nothing when there are no tags. */
  function RoleSection(roles: seq<string>): string {
    if roles == [] then "" else " (" + Strings.Join(roles, RoleDelimiter) + ")"
  }

  /** A message is shown when it is neither null nor empty. */
  predicate Shown(message: Option<string>) {
    message.Some? && message.value != ""
  }

  /** ": " and the message, when the message is shown. */
  function MessageSuffix(message: Option<string>): string {
    if Shown(message) then ": " + message.value else ""
  }

  /** The line up to, not including, the message text. */
  function Head(author: AuthorDetails, superChat: Option<SuperChatDetails>): string {
    SuperChatPrefix(superChat) + author.displayName + RoleSection(Roles(author))
  }

  /** The display line of one chat message. */
  function FormatMessage(message: Option<string>, author: AuthorDetails, superChat: Option<SuperChatDetails>): string {
    Head(author, superChat) + MessageSuffix(message)
  }

  function Line(m: ChatMessage): string {
    FormatMessage(m.displayMessage, m.authorDetails, m.superChatDetails)
  }

  /** The `roles` list of `buildOutput`: one tag per true flag, added in the order owner, moderator, sponsor. */
  method CollectRoles(author: AuthorDetails) returns (roles: seq<string>)
    ensures roles == Roles(author)
  {
    roles := [];
    if author.isChatOwner {
      roles := roles + ["OWNER"];
    }
    if author.isChatModerator {
      roles := roles + ["MODERATOR"];
    }
    if author.isChatSponsor {
      roles := roles + ["SPONSOR"];
    }
  }

  /**
   * The `if (roles.size() > 0)` block of `buildOutput`: " (", then each tag
   * after the delimiter, which becomes ", " after the first tag, then ")".
   */
  method AppendRoleSection(prefix: string, roles: seq<string>) returns (output: string)
    ensures output == prefix + RoleSection(roles)
  {
    output := prefix;
    if |roles| > 0 {
      output := output + " (";
      ghost var start := output;
      var delim := "";
      var i := 0;
      while i < |roles|
        invariant 0 <= i <= |roles|
        invariant delim == if i == 0 then "" else RoleDelimiter
        invariant output == start + Strings.Join(roles[..i], RoleDelimiter)
      {
        Strings.JoinLoopStep(start, roles, i, delim, RoleDelimiter);
        output := output + delim + roles[i];
        delim := RoleDelimiter;
        i := i + 1;
      }
      assert roles[..|roles|] == roles;
      Strings.Regroup4(prefix, " (", Strings.Join(roles, RoleDelimiter), ")");
      output := output + ")";
    }
  }

  /** `buildOutput`: appends to a buffer, collects the role tags, and joins them with a reassigned delimiter. */
  method BuildOutput(message: Option<string>, author: AuthorDetails, superChatDetails: Option<SuperChatDetails>)
    returns (output: string)
    ensures output == FormatMessage(message, author, superChatDetails)
  {
    output := "";
    if superChatDetails.Some? {
      output := output + superChatDetails.value.amountDisplayString;
      output := output + SuperChatBanner;
    }
    assert output == SuperChatPrefix(superChatDetails);
    output := output + author.displayName;
    var roles := CollectRoles(author);
    output := AppendRoleSection(output, roles);
    ghost var head := output;
    if message.Some? && |message.value| > 0 {
      output := output + ": ";
      output := output + message.value;
    }
    assert output == head + MessageSuffix(message);
  }

  /** The line is the super-chat prefix, the display name, the role section and the message suffix, in that order. */
  lemma FormatParts(message: Option<string>, author: AuthorDetails, superChat: Option<SuperChatDetails>)
    ensures FormatMessage(message, author, superChat)
      == SuperChatPrefix(superChat) + (author.displayName + (RoleSection(Roles(author)) + MessageSuffix(message)))
  {
    Strings.Regroup4(SuperChatPrefix(superChat), author.displayName, RoleSection(Roles(author)), MessageSuffix(message));
  }

  /** With super-chat details the line opens with the amount and then the banner, without a separator; otherwise with the display name. */
  lemma SuperChatPrefixRule(message: Option<string>, author: AuthorDetails, superChat: Option<SuperChatDetails>)
    ensures superChat.Some? ==>
      var opening := superChat.value.amountDisplayString + SuperChatBanner;
      var line := FormatMessage(message, author, superChat);
      |line| >= |opening| && line[..|opening|] == opening
        && line[|opening|..|opening| + |author.displayName|] == author.displayName
    ensures superChat.None? ==>
      var line := FormatMessage(message, author, superChat);
      |line| >= |author.displayName| && line[..|author.displayName|] == author.displayName
  {
    FormatParts(message, author, superChat);
    var rest := RoleSection(Roles(author)) + MessageSuffix(message);
    Strings.Pieces(SuperChatPrefix(superChat), author.displayName, rest);
  }

  /** A tag is present exactly when its flag is true, the tags appear in the order OWNER, MODERATOR, SPONSOR, and there are no others. */
  lemma RoleTagsRule(author: AuthorDetails)
    ensures ("OWNER" in Roles(author)) <==> author.isChatOwner
    ensures ("MODERATOR" in Roles(author)) <==> author.isChatModerator
    ensures ("SPONSOR" in Roles(author)) <==> author.isChatSponsor
    ensures forall i, j :: 0 <= i < j < |Roles(author)| ==> RoleRank(Roles(author)[i]) < RoleRank(Roles(author)[j])
    ensures forall t :: t in Roles(author) ==> t in ["OWNER", "MODERATOR", "SPONSOR"]
  {
  }

  /** Without any role flag the line is prefix, name and message alone: no parenthesised section. */
  lemma NoRolesNoSection(message: Option<string>, author: AuthorDetails, superChat: Option<SuperChatDetails>)
    requires !author.isChatOwner && !author.isChatModerator && !author.isChatSponsor
    ensures FormatMessage(message, author, superChat)
      == SuperChatPrefix(superChat) + author.displayName + MessageSuffix(message)
  {
  }

  /**
   * With roles, the section after the name is " (" + tags joined by ", " +
   * ")": its inside holds one ',' fewer than there are tags, and splitting it
   * on ',' gives the tags back, every one but the first behind the blank of
   * the delimiter.
   */
  lemma {:induction false} RoleSectionRule(author: AuthorDetails)
    requires Roles(author) != []
    ensures RoleSection(Roles(author)) == " (" + Strings.Join(Roles(author), RoleDelimiter) + ")"
    ensures Strings.Count(Strings.Join(Roles(author), RoleDelimiter), ',') == |Roles(author)| - 1
    ensures var pieces := Strings.Split(Strings.Join(Roles(author), RoleDelimiter), ',');
      && |pieces| == |Roles(author)|
      && pieces[0] == Roles(author)[0]
      && forall i :: 1 <= i < |pieces| ==> pieces[i] == " " + Roles(author)[i]
  {
    var roles := Roles(author);
    assert Strings.Free(roles, ',') by {
      forall i | 0 <= i < |roles| ensures ',' !in roles[i] {
        assert roles[i] in {"OWNER", "MODERATOR", "SPONSOR"};
      }
    }
    assert RoleDelimiter == [','] + " ";
    Strings.SplitLongSeparator(roles, ',', " ");
  }

  /** ": " and the message follow the head exactly when the message is non-null and non-empty, and nothing follows the message. */
  lemma MessageSuffixRule(message: Option<string>, author: AuthorDetails, superChat: Option<SuperChatDetails>)
    ensures var line := FormatMessage(message, author, superChat);
      var head := Head(author, superChat);
      |line| >= |head| && line[..|head|] == head
        && (|line| > |head| <==> Shown(message))
        && (Shown(message) ==> line[|head|..] == ": " + message.value)
  {
    Strings.Pieces(Head(author, superChat), MessageSuffix(message), "");
    assert MessageSuffix(message) + "" == MessageSuffix(message);
  }

  /** Owner and sponsor flags, a plain message. */
  lemma AliceExample()
    ensures FormatMessage(Some("hello"), AuthorDetails("Alice", true, false, true), None)
      == "Alice (OWNER, SPONSOR): hello"
  {
    var author := AuthorDetails("Alice", true, false, true);
    FormatParts(Some("hello"), author, None);
    AliceSection(author);
    assert MessageSuffix(Some("hello")) == ": hello";
    AliceLiteral();
  }

  lemma AliceLiteral()
    ensures "Alice" + (" (OWNER, SPONSOR)" + ": hello") == "Alice (OWNER, SPONSOR): hello"
  {
  }

  lemma AliceSection(author: AuthorDetails)
    requires author.isChatOwner && !author.isChatModerator && author.isChatSponsor
    ensures RoleSection(Roles(author)) == " (OWNER, SPONSOR)"
  {
    assert Roles(author) == ["OWNER", "SPONSOR"];
    assert Strings.Join(["OWNER", "SPONSOR"], RoleDelimiter) == "OWNER" + RoleDelimiter + "SPONSOR";
  }

  /** A super chat with an empty message and no roles. */
  lemma BobExample()
    ensures FormatMessage(Some(""), AuthorDetails("Bob", false, false, false), Some(SuperChatDetails("$5.00")))
      == "$5.00" + SuperChatBanner + "Bob"
  {
    var author := AuthorDetails("Bob", false, false, false);
    var superChat := Some(SuperChatDetails("$5.00"));
    FormatParts(Some(""), author, superChat);
    assert RoleSection(Roles(author)) + MessageSuffix(Some("")) == "";
  }

  // ---------------------------------------------------------------------------
  // The poll

  /**
   * One scripted answer of the live-chat-messages list call: a page, or a
   * failure (service error, I/O error or any other throwable, all handled
   * alike). `pollingIntervalMillis` is a boxed `Long` in the source: `None`
   * is a response without it.
   */
  datatype Retrieval =
    | Retrieved(items: seq<ChatMessage>, nextPageToken: Option<string>, pollingIntervalMillis: Option<int>)
    | RetrievalFailed(message: string)

  /** The page token and delay one retrieval was scheduled with. */
  datatype Request = Request(pageToken: Option<string>, delayMs: int)

  /**
   * Why polling stopped: the script ran out (the source would go on), a
   * retrieval failed, or rescheduling failed (the interval was missing, so
   * unboxing threw, or negative, so the timer refused the delay).
   */
  datatype Stop = ScriptEnded | CallFailed | RescheduleFailed

  /** The retrievals made, the lines emitted, and why it stopped. */
  datatype Trace = Trace(calls: seq<Request>, lines: seq<string>, stop: Stop)

  /** The lines a page prints, message by message. */
  function PageLines(items: seq<ChatMessage>): seq<string>
    decreases |items|
  {
    if items == [] then [] else PageLines(items[..|items| - 1]) + [Line(items[|items| - 1])]
  }

  /** A page prints exactly one line per message, in page order. */
  lemma {:induction false} OneLinePerMessage(items: seq<ChatMessage>)
    ensures |PageLines(items)| == |items|
    ensures forall i :: 0 <= i < |items| ==> PageLines(items)[i] == Line(items[i])
    decreases |items|
  {
    if items != [] {
      var init := items[..|items| - 1];
      var last := Line(items[|items| - 1]);
      OneLinePerMessage(init);
      assert PageLines(items) == PageLines(init) + [last];
      forall i | 0 <= i < |items| ensures PageLines(items)[i] == Line(items[i]) {
        if i < |init| {
          assert items[i] == init[i];
          assert PageLines(items)[i] == PageLines(init)[i];
        } else {
          assert PageLines(items)[i] == last;
        }
      }
    }
  }

  /** A response after which the next retrieval is scheduled. */
  predicate Reschedules(r: Retrieval) {
    r.Retrieved? && r.pollingIntervalMillis.Some? && r.pollingIntervalMillis.value >= 0
  }

  /**
   * The self-rescheduling retrieval: call with `token` after `delayMs`, print
   * the page, and go on with the page's token and interval. The recursive
   * step sits inside the same `try` as the call, so any failure ends it.
   */
  function Poll(script: seq<Retrieval>, token: Option<string>, delayMs: int): (t: Trace)
    ensures |t.calls| <= |script|
    ensures script != [] ==> |t.calls| >= 1
    decreases |script|
  {
    if script == [] then Trace([], [], ScriptEnded)
    else
      var call := Request(token, delayMs);
      match script[0]
      case RetrievalFailed(_) => Trace([call], [], CallFailed)
      case Retrieved(items, next, interval) =>
        if interval.None? || interval.value < 0 then Trace([call], PageLines(items), RescheduleFailed)
        else
          var rest := Poll(script[1..], next, interval.value);
          Trace([call] + rest.calls, PageLines(items) + rest.lines, rest.stop)
  }

  /** The lines of every page among `rs`, in order. */
  function AllLines(rs: seq<Retrieval>): seq<string>
    decreases |rs|
  {
    if rs == [] then []
    else (if rs[0].Retrieved? then PageLines(rs[0].items) else []) + AllLines(rs[1..])
  }

  /** The `for` loop of one retrieval: one formatted line per message, in page order. */
  method PrintPage(items: seq<ChatMessage>) returns (lines: seq<string>)
    ensures lines == PageLines(items)
  {
    lines := [];
    var j := 0;
    while j < |items|
      invariant 0 <= j <= |items|
      invariant lines == PageLines(items[..j])
    {
      var line := BuildOutput(items[j].displayMessage, items[j].authorDetails, items[j].superChatDetails);
      assert items[..j + 1][..j] == items[..j];
      lines := lines + [line];
      j := j + 1;
    }
    assert items[..j] == items;
  }

  /** One step of `Poll` on a non-empty script. */
  lemma PollStep(script: seq<Retrieval>, token: Option<string>, delayMs: int)
    requires script != []
    ensures var t := Poll(script, token, delayMs);
      var call := Request(token, delayMs);
      var r := script[0];
      && (r.RetrievalFailed? ==> t == Trace([call], [], CallFailed))
      && (r.Retrieved? && !Reschedules(r) ==> t == Trace([call], PageLines(r.items), RescheduleFailed))
      && (Reschedules(r) ==>
            var rest := Poll(script[1..], r.nextPageToken, r.pollingIntervalMillis.value);
            t == Trace([call] + rest.calls, PageLines(r.items) + rest.lines, rest.stop))
  {
  }

  /** Moving one call and its page from the rest of the trace to what was done so far. */
  lemma Extend(calls: seq<Request>, lines: seq<string>, call: Request, page: seq<string>, rest: Trace)
    ensures Trace(calls + ([call] + rest.calls), lines + (page + rest.lines), rest.stop)
      == Trace(calls + [call] + rest.calls, lines + page + rest.lines, rest.stop)
  {
    assert calls + ([call] + rest.calls) == calls + [call] + rest.calls;
    assert lines + (page + rest.lines) == lines + page + rest.lines;
  }

  /** `listChatMessages(liveChatId, null, 0)` and what follows, as a loop over the scripted responses. */
  method PollChatMessages(script: seq<Retrieval>) returns (calls: seq<Request>, lines: seq<string>, stop: Stop)
    ensures Trace(calls, lines, stop) == Poll(script, None, 0)
  {
    var token: Option<string> := None;
    var delayMs := 0;
    calls, lines, stop := [], [], ScriptEnded;
    var i := 0;
    while i < |script|
      invariant 0 <= i <= |script|
      invariant var rest := Poll(script[i..], token, delayMs);
        Poll(script, None, 0) == Trace(calls + rest.calls, lines + rest.lines, rest.stop)
      decreases |script| - i
    {
      var response := script[i];
      PollStep(script[i..], token, delayMs);
      assert script[i..][0] == response && script[i..][1..] == script[i + 1..];
      if response.RetrievalFailed? {
        calls := calls + [Request(token, delayMs)];
        stop := CallFailed;
        return;
      }
      var page := PrintPage(response.items);
      if !Reschedules(response) {
        calls := calls + [Request(token, delayMs)];
        lines := lines + page;
        stop := RescheduleFailed;
        return;
      }
      Extend(calls, lines, Request(token, delayMs), page,
        Poll(script[i + 1..], response.nextPageToken, response.pollingIntervalMillis.value));
      calls := calls + [Request(token, delayMs)];
      lines := lines + page;
      token := response.nextPageToken;
      delayMs := response.pollingIntervalMillis.value;
      i := i + 1;
    }
  }

  /** The first retrieval uses a null page token and no delay. */
  lemma FirstRequest(script: seq<Retrieval>)
    requires script != []
    ensures Poll(script, None, 0).calls[0] == Request(None, 0)
  {
  }

  /** Each later retrieval uses the previous response's page token and waits its polling interval. */
  lemma {:induction false} TokenThreading(script: seq<Retrieval>, token: Option<string>, delayMs: int, k: nat)
    requires k + 1 < |Poll(script, token, delayMs).calls|
    ensures Reschedules(script[k])
    ensures Poll(script, token, delayMs).calls[k + 1]
      == Request(script[k].nextPageToken, script[k].pollingIntervalMillis.value)
    decreases k
  {
    var r := script[0];
    assert Reschedules(r);
    if k > 0 {
      TokenThreading(script[1..], r.nextPageToken, r.pollingIntervalMillis.value, k - 1);
    }
  }

  /** Polling goes on exactly while responses reschedule: the last call's response says why it stopped. */
  lemma {:induction false} StopReason(script: seq<Retrieval>, token: Option<string>, delayMs: int)
    ensures var t := Poll(script, token, delayMs);
      && (t.stop == ScriptEnded ==> |t.calls| == |script|)
      && (t.stop == CallFailed ==> |t.calls| >= 1 && script[|t.calls| - 1].RetrievalFailed?)
      && (t.stop == RescheduleFailed ==> |t.calls| >= 1 && script[|t.calls| - 1].Retrieved? && !Reschedules(script[|t.calls| - 1]))
    decreases |script|
  {
    if script != [] && Reschedules(script[0]) {
      var r := script[0];
      StopReason(script[1..], r.nextPageToken, r.pollingIntervalMillis.value);
    }
  }

  /** A failed retrieval after k rescheduling responses is the last one: exactly k + 1 calls are made. */
  lemma {:induction false} FailureEndsPolling(script: seq<Retrieval>, token: Option<string>, delayMs: int, k: nat)
    requires k < |script| && script[k].RetrievalFailed?
    requires forall j :: 0 <= j < k ==> Reschedules(script[j])
    ensures |Poll(script, token, delayMs).calls| == k + 1
    ensures Poll(script, token, delayMs).stop == CallFailed
    decreases k
  {
    if k > 0 {
      var r := script[0];
      assert Reschedules(r);
      FailureEndsPolling(script[1..], r.nextPageToken, r.pollingIntervalMillis.value, k - 1);
    }
  }

  /** The emitted lines are those of the pages actually retrieved, one per message, in order; an empty page adds none. */
  lemma {:induction false} LinesOfRetrievedPages(script: seq<Retrieval>, token: Option<string>, delayMs: int)
    ensures var t := Poll(script, token, delayMs);
      t.lines == AllLines(script[..|t.calls|])
    decreases |script|
  {
    if script != [] {
      var t := Poll(script, token, delayMs);
      var r := script[0];
      if Reschedules(r) {
        var rest := Poll(script[1..], r.nextPageToken, r.pollingIntervalMillis.value);
        LinesOfRetrievedPages(script[1..], r.nextPageToken, r.pollingIntervalMillis.value);
        assert script[..|t.calls|][1..] == script[1..][..|rest.calls|];
      } else {
        assert script[..1][1..] == [];
      }
    }
  }

  /** Three pages: the calls carry no token, then "T1" after 5000 ms, then "T2" after 3000 ms. */
  lemma CursorScenario(a: ChatMessage, b: ChatMessage)
    ensures var script := [
        Retrieved([a], Some("T1"), Some(5000)),
        Retrieved([b], Some("T2"), Some(3000)),
        Retrieved([], None, Some(2000))];
      Poll(script, None, 0) == Trace(
        [Request(None, 0), Request(Some("T1"), 5000), Request(Some("T2"), 3000)],
        [Line(a), Line(b)],
        ScriptEnded)
  {
    var script := [
      Retrieved([a], Some("T1"), Some(5000)),
      Retrieved([b], Some("T2"), Some(3000)),
      Retrieved([], None, Some(2000))];
    var s1 := [Retrieved([b], Some("T2"), Some(3000)), Retrieved([], None, Some(2000))];
    var s2 := [Retrieved([], None, Some(2000))];
    assert script[1..] == s1 && s1[1..] == s2 && s2[1..] == [];
    assert PageLines([a]) == [Line(a)];
    assert PageLines([b]) == [Line(b)];
    assert PageLines([]) == [];
    PollStep(script, None, 0);
    PollStep(s1, Some("T1"), 5000);
    PollStep(s2, Some("T2"), 3000);
    assert Poll(s2, Some("T2"), 3000) == Trace([Request(Some("T2"), 3000)], [], ScriptEnded);
  }

  /** A retrieval that fails on the second call ends polling: no third call. */
  lemma SecondCallFails(a: ChatMessage, page: Retrieval, message: string)
    ensures var script := [Retrieved([a], Some("T1"), Some(5000)), RetrievalFailed(message), page];
      Poll(script, None, 0) == Trace([Request(None, 0), Request(Some("T1"), 5000)], [Line(a)], CallFailed)
  {
    var script := [Retrieved([a], Some("T1"), Some(5000)), RetrievalFailed(message), page];
    assert script[1..] == [RetrievalFailed(message), page];
    assert PageLines([a]) == [Line(a)];
  }
}
