/** The shared handler steps of the current package
    (src/plugins/.../common/utils.py): the command-conflict test, cookie
    rotation, display text assembly, and the ask/store steps of a chat
    turn with their effects on the session store. */
module SrcCommonUtils {
  import opened Json
  import opened Text
  import opened Errors
  import opened Messages
  import SrcDataModel

  // ------------------------------------------------------------------
  // is_conflict_with_other_matcher
  // ------------------------------------------------------------------

  /** What the conflict test means: the message starts with some command
      prefix immediately followed by some command name. */
  predicate StartsWithCommand(msg: string, starts: set<string>, commands: set<string>)
  {
    exists p, c | p in starts && c in commands :: StartsWith(msg, p + c)
  }

  /** The inner alternation `(c0|c1|...)` after a fixed prefix, tried in order. */
  function MatchCommand(msg: string, p: string, commands: seq<string>): bool
    decreases |commands|
  {
    commands != [] && (StartsWith(msg, p + commands[0]) || MatchCommand(msg, p, commands[1..]))
  }

  /** `((p0|p1|...)(c0|c1|...).*)` anchored at the start, tried in order. */
  function MatchFrom(msg: string, starts: seq<string>, commands: seq<string>): bool
    decreases |starts|
  {
    starts != [] && (MatchCommand(msg, starts[0], commands) || MatchFrom(msg, starts[1..], commands))
  }

  lemma {:induction false} MatchCommandIff(msg: string, p: string, commands: seq<string>)
    ensures MatchCommand(msg, p, commands) <==> exists j :: 0 <= j < |commands| && StartsWith(msg, p + commands[j])
    decreases |commands|
  {
    if commands != [] {
      MatchCommandIff(msg, p, commands[1..]);
      if MatchCommand(msg, p, commands[1..]) {
        var j :| 0 <= j < |commands[1..]| && StartsWith(msg, p + commands[1..][j]);
        assert StartsWith(msg, p + commands[j + 1]);
      }
      if exists j :: 0 <= j < |commands| && StartsWith(msg, p + commands[j]) {
        var j :| 0 <= j < |commands| && StartsWith(msg, p + commands[j]);
        if j > 0 { assert commands[1..][j - 1] == commands[j]; }
      }
    }
  }

  lemma {:induction false} MatchFromIff(msg: string, starts: seq<string>, commands: seq<string>)
    ensures MatchFrom(msg, starts, commands) <==>
            exists i, j :: 0 <= i < |starts| && 0 <= j < |commands| && StartsWith(msg, starts[i] + commands[j])
    decreases |starts|
  {
    if starts != [] {
      MatchFromIff(msg, starts[1..], commands);
      MatchCommandIff(msg, starts[0], commands);
      if MatchFrom(msg, starts[1..], commands) {
        var i, j :| 0 <= i < |starts[1..]| && 0 <= j < |commands| && StartsWith(msg, starts[1..][i] + commands[j]);
        assert StartsWith(msg, starts[i + 1] + commands[j]);
      }
      if exists i, j :: 0 <= i < |starts| && 0 <= j < |commands| && StartsWith(msg, starts[i] + commands[j]) {
        var i, j :| 0 <= i < |starts| && 0 <= j < |commands| && StartsWith(msg, starts[i] + commands[j]);
        if i > 0 { assert starts[1..][i - 1] == starts[i]; }
      }
    }
  }

  /** `is_conflict_with_other_matcher`: the regular expression built from the
      configured prefixes and the three command sets, each listed in its
      iteration order. */
  function IsConflict(msg: string, starts: seq<string>, chat: seq<string>, newChat: seq<string>,
                      history: seq<string>): (r: bool)
  {
    MatchFrom(msg, starts, chat) || MatchFrom(msg, starts, newChat) || MatchFrom(msg, starts, history)
  }

  /** One alternation group matches exactly the messages that begin with a
      prefix followed by one of its commands. */
  lemma MatchFromSets(msg: string, starts: seq<string>, commands: seq<string>)
    ensures MatchFrom(msg, starts, commands) <==> StartsWithCommand(msg, set p | p in starts, set c | c in commands)
  {
    MatchFromIff(msg, starts, commands);
    if StartsWithCommand(msg, set p | p in starts, set c | c in commands) {
      var p, c :| p in starts && c in commands && StartsWith(msg, p + c);
      var i :| 0 <= i < |starts| && starts[i] == p;
      var j :| 0 <= j < |commands| && commands[j] == c;
    }
  }

  /** Matching a command of a union is matching a command of either part. */
  lemma StartsWithCommandUnion(msg: string, starts: set<string>, a: set<string>, b: set<string>)
    ensures StartsWithCommand(msg, starts, a + b) <==> StartsWithCommand(msg, starts, a) || StartsWithCommand(msg, starts, b)
  {
    if StartsWithCommand(msg, starts, a + b) {
      var p, c :| p in starts && c in a + b && StartsWith(msg, p + c);
      if c in a {
        assert StartsWithCommand(msg, starts, a);
      } else {
        assert StartsWithCommand(msg, starts, b);
      }
    }
  }

  /** The regular expression matches exactly the messages that begin with a
      prefix followed by any of the commands, whatever the listing order. */
  lemma IsConflictIff(msg: string, starts: seq<string>, chat: seq<string>, newChat: seq<string>, history: seq<string>)
    ensures IsConflict(msg, starts, chat, newChat, history) <==>
            StartsWithCommand(msg, set p | p in starts, (set c | c in chat) + (set c | c in newChat) + (set c | c in history))
  {
    var S := set p | p in starts;
    var A, B, C := set c | c in chat, set c | c in newChat, set c | c in history;
    MatchFromSets(msg, starts, chat);
    MatchFromSets(msg, starts, newChat);
    MatchFromSets(msg, starts, history);
    StartsWithCommandUnion(msg, S, A + B, C);
    StartsWithCommandUnion(msg, S, A, B);
  }

  // ------------------------------------------------------------------
  // Cookie rotation
  // ------------------------------------------------------------------

  /** `check_cookies_usable` on the probe's outcome: the reply to `Hello`,
      or `None` when asking raised. */
  function ProbeUsable(reply: Option<Json>): (usable: bool)
    ensures usable <==> reply.Some? && AsDict(reply.value, false).Some?
                        && SrcDataModel.Acceptable(AsDict(reply.value, false).value)
  {
    if reply.None? then false
    else
      SrcDataModel.ClassifyAcceptsIff(reply.value);
      SrcDataModel.Classify(reply.value).Accepted?
  }

  /** A throttled probe is not usable. */
  lemma ThrottledProbeUnusable(reply: Json)
    requires SrcDataModel.ResultValue(reply) == Some(SrcDataModel.Throttled)
    ensures !ProbeUsable(Some(reply))
  {
  }

  /** The position of the first path whose probe succeeded, over the pairs
      `zip` forms. */
  function FirstUsable(results: seq<bool>, limit: nat): (k: Option<nat>)
    ensures k.Some? ==> k.value < limit && k.value < |results| && results[k.value]
                        && forall i :: 0 <= i < k.value ==> !results[i]
    ensures k.None? ==> forall i :: 0 <= i < limit && i < |results| ==> !results[i]
    decreases |results|
  {
    if results == [] || limit == 0 then None
    else if results[0] then Some(0)
    else match FirstUsable(results[1..], limit - 1)
      case None => None
      case Some(k) => Some(k + 1)
  }

  /** `switch_to_usable_cookies`, given what probing all paths gave: `None`
      when gathering the probes raised (the error is re-raised), otherwise one
      result per path. The flag is lowered on every way out. */
  method SwitchToUsableCookies(data: SrcDataModel.PluginData, gathered: Option<seq<bool>>) returns (r: Result<bool>)
    modifies data
    ensures !data.isSwitchingCookies
    ensures data.cookiesFilePathList == old(data.cookiesFilePathList)
    ensures data.userDataDict == old(data.userDataDict) && data.replyMessageIdDict == old(data.replyMessageIdDict)
    ensures gathered.None? ==> r == Err(PyTypeError) && data.currentCookiesFilePath == old(data.currentCookiesFilePath)
    ensures gathered.Some? ==> r.Ok?
    ensures gathered.Some? ==>
              match FirstUsable(gathered.value, |data.cookiesFilePathList|)
              case Some(k) => r == Ok(true) && data.currentCookiesFilePath == data.cookiesFilePathList[k]
              case None => r == Ok(false) && data.currentCookiesFilePath == old(data.currentCookiesFilePath)
  {
    data.isSwitchingCookies := true;
    if gathered.None? {
      data.isSwitchingCookies := false;
      return Err(PyTypeError);
    }
    var results := gathered.value;
    var paths := data.cookiesFilePathList;
    var i := 0;
    while i < |paths| && i < |results|
      invariant 0 <= i <= |paths| && i <= |results| && data.cookiesFilePathList == paths
      invariant forall j :: 0 <= j < i ==> !results[j]
      invariant data.currentCookiesFilePath == old(data.currentCookiesFilePath)
      invariant data.userDataDict == old(data.userDataDict) && data.replyMessageIdDict == old(data.replyMessageIdDict)
    {
      if results[i] {
        data.currentCookiesFilePath := paths[i];
        data.isSwitchingCookies := false;
        FirstUsableAt(results, |paths|, i);
        return Ok(true);
      }
      i := i + 1;
    }
    data.isSwitchingCookies := false;
    FirstUsableNone(results, |paths|);
    return Ok(false);
  }

  lemma {:induction false} FirstUsableAt(results: seq<bool>, limit: nat, k: nat)
    requires k < limit && k < |results| && results[k] && forall j :: 0 <= j < k ==> !results[j]
    ensures FirstUsable(results, limit) == Some(k)
    decreases k
  {
    if k > 0 {
      FirstUsableAt(results[1..], limit - 1, k - 1);
    }
  }

  lemma {:induction false} FirstUsableNone(results: seq<bool>, limit: nat)
    requires forall j :: 0 <= j < limit && j < |results| ==> !results[j]
    ensures FirstUsable(results, limit) == None
    decreases |results|
  {
    if results != [] && limit > 0 {
      FirstUsableNone(results[1..], limit - 1);
    }
  }

  // ------------------------------------------------------------------
  // Display text
  // ------------------------------------------------------------------

  /** What one display entry turns into: text, or the markdown an image is
      rendered from. */
  datatype DisplayData = TextData(text: string) | ImageData(markdown: string)

  /** The heading a content type gets in a display type. */
  function Prefix(displayType: string, contentType: string): string
  {
    if contentType == "reference" then (if displayType == "image" then "参考链接：\n\n" else "参考链接：\n")
    else if contentType == "suggested-question" then (if displayType == "image" then "猜你想问：\n\n" else "猜你想问：\n")
    else if contentType == "num-max-conversation" then "回复数："
    else ""
  }

  /** Reading one content type of a reply, as a function of the type. */
  function ContentOf(raw: Json): string -> Result<string>
  {
    t => SrcDataModel.GetContent(raw, t)
  }

  /** The content of each content type, in order, read with `get`. */
  function ContentsBy(get: string -> Result<string>, types: seq<string>): (cs: seq<Result<string>>)
    ensures |cs| == |types|
    ensures forall i :: 0 <= i < |types| ==> cs[i] == get(types[i])
  {
    seq(|types|, i requires 0 <= i < |types| => get(types[i]))
  }

  /** The content of each content type of a reply, in order. */
  function Contents(raw: Json, types: seq<string>): (cs: seq<Result<string>>)
    ensures |cs| == |types|
  {
    ContentsBy(ContentOf(raw), types)
  }

  /** The headed non-empty contents of the first content types, given their
      contents, stopping at the first one that raises. */
  function Headed(displayType: string, types: seq<string>, contents: seq<Result<string>>): Result<seq<string>>
    requires |contents| == |types|
    decreases |types|
  {
    if types == [] then Ok([])
    else match Headed(displayType, types[..|types| - 1], contents[..|types| - 1])
      case Err(e) => Err(e)
      case Ok(prev) =>
        match contents[|types| - 1]
        case Err(e) => Err(e)
        case Ok(c) => Ok(if c == "" then prev else prev + [Prefix(displayType, types[|types| - 1]) + c])
  }

  /** The headed non-empty contents of a reply for the content types. */
  function Parts(raw: Json, displayType: string, types: seq<string>): Result<seq<string>>
  {
    Headed(displayType, types, Contents(raw, types))
  }

  /** A present, non-empty last content adds its headed part. */
  lemma HeadedSnoc(displayType: string, types: seq<string>, contents: seq<Result<string>>)
    requires |contents| == |types| && types != []
    requires Headed(displayType, types[..|types| - 1], contents[..|types| - 1]).Ok?
    requires contents[|types| - 1].Ok? && contents[|types| - 1].value != ""
    ensures Headed(displayType, types, contents)
            == Ok(Headed(displayType, types[..|types| - 1], contents[..|types| - 1]).value
                  + [Prefix(displayType, types[|types| - 1]) + contents[|types| - 1].value])
  {
  }

  /** When every content is there and non-empty, each type contributes its
      headed content, in the configured order. */
  lemma {:induction false} HeadedAllPresent(displayType: string, types: seq<string>, contents: seq<Result<string>>)
    requires |contents| == |types|
    requires forall i :: 0 <= i < |types| ==> contents[i].Ok? && contents[i].value != ""
    ensures Headed(displayType, types, contents).Ok?
    ensures var ps := Headed(displayType, types, contents).value;
            |ps| == |types|
            && forall i :: 0 <= i < |types| ==> ps[i] == Prefix(displayType, types[i]) + contents[i].value
    decreases |types|
  {
    if types != [] {
      var n := |types| - 1;
      var init, cinit := types[..n], contents[..n];
      assert forall i :: 0 <= i < n ==> init[i] == types[i] && cinit[i] == contents[i];
      HeadedAllPresent(displayType, init, cinit);
      HeadedSnoc(displayType, types, contents);
    }
  }

  /** The same for a reply whose contents are all there and non-empty. */
  lemma PartsAllPresent(raw: Json, displayType: string, types: seq<string>)
    requires forall i :: 0 <= i < |types| ==> (SrcDataModel.GetContent(raw, types[i]).Ok?
                                               && SrcDataModel.GetContent(raw, types[i]).value != "")
    ensures Parts(raw, displayType, types).Ok?
    ensures var ps := Parts(raw, displayType, types).value;
            |ps| == |types|
            && forall i :: 0 <= i < |types| ==>
                 ps[i] == Prefix(displayType, types[i]) + SrcDataModel.GetContent(raw, types[i]).value
  {
    HeadedAllPresent(displayType, types, Contents(raw, types));
  }

  /** Once the first contents raise, so does the whole walk, with the same
      error. */
  lemma {:induction false} HeadedErrExtends(displayType: string, types: seq<string>, contents: seq<Result<string>>, i: nat)
    requires |contents| == |types|
    requires i <= |types| && Headed(displayType, types[..i], contents[..i]).Err?
    ensures Headed(displayType, types, contents) == Headed(displayType, types[..i], contents[..i])
    decreases |types|
  {
    if i < |types| {
      var n := |types| - 1;
      assert types[..n][..i] == types[..i] && contents[..n][..i] == contents[..i];
      HeadedErrExtends(displayType, types[..n], contents[..n], i);
    } else {
      assert types[..i] == types && contents[..i] == contents;
    }
  }

  /** One more present content adds its headed part, unless it is empty. */
  lemma HeadedStep(displayType: string, types: seq<string>, contents: seq<Result<string>>, i: nat, parts: seq<string>)
    requires |contents| == |types| && i < |types|
    requires Headed(displayType, types[..i], contents[..i]) == Ok(parts) && contents[i].Ok?
    ensures Headed(displayType, types[..i + 1], contents[..i + 1])
            == Ok(if contents[i].value == "" then parts else parts + [Prefix(displayType, types[i]) + contents[i].value])
  {
    assert types[..i + 1][..i] == types[..i] && contents[..i + 1][..i] == contents[..i];
  }

  /** A content that raises makes the whole walk raise its error. */
  lemma HeadedStepErr(displayType: string, types: seq<string>, contents: seq<Result<string>>, i: nat, parts: seq<string>)
    requires |contents| == |types| && i < |types|
    requires Headed(displayType, types[..i], contents[..i]) == Ok(parts) && contents[i].Err?
    ensures Headed(displayType, types, contents) == Err(contents[i].error)
  {
    assert types[..i + 1][..i] == types[..i] && contents[..i + 1][..i] == contents[..i];
    assert Headed(displayType, types[..i + 1], contents[..i + 1]) == Err(contents[i].error);
    HeadedErrExtends(displayType, types, contents, i + 1);
  }

  /** Taking the contents of the first types is taking the first contents. */
  lemma ContentsPrefix(raw: Json, types: seq<string>, i: nat)
    requires i <= |types|
    ensures Contents(raw, types[..i]) == Contents(raw, types)[..i]
  {
  }

  /** An empty content is skipped without a heading. */
  lemma PartsSkipEmpty(raw: Json, displayType: string, types: seq<string>, t: string)
    requires SrcDataModel.GetContent(raw, t) == Ok("")
    ensures Parts(raw, displayType, types + [t]) == Parts(raw, displayType, types)
  {
    assert (types + [t])[..|types|] == types;
    ContentsPrefix(raw, types + [t], |types|);
  }

  /** Assembly stops at the first content type that raises. */
  lemma PartsStopAtError(raw: Json, displayType: string, types: seq<string>, t: string)
    requires Parts(raw, displayType, types).Ok? && SrcDataModel.GetContent(raw, t).Err?
    ensures Parts(raw, displayType, types + [t]) == Err(SrcDataModel.GetContent(raw, t).error)
  {
    assert (types + [t])[..|types|] == types;
    ContentsPrefix(raw, types + [t], |types|);
  }

  /** The display data for one entry, from the latest reply. */
  function DisplayDataOf(raw: Json, entry: SrcDataModel.DisplayContentType): Result<DisplayData>
  {
    match Parts(raw, entry.displayType, entry.contentTypes)
    case Err(e) => Err(e)
    case Ok(ps) => Ok(if entry.displayType == "text" then TextData(Join(ps, "\n\n")) else ImageData(Join(ps, "\n\n---\n\n")))
  }

  /** The loop of `get_display_data`: walks the content types, reading
      each with `get` (`get_content` on the latest reply), skipping empty
      contents and heading the others. */
  method CollectParts(get: string -> Result<string>, displayType: string, types: seq<string>) returns (r: Result<seq<string>>)
    ensures r == Headed(displayType, types, ContentsBy(get, types))
  {
    ghost var contents := ContentsBy(get, types);
    var plainTextList: seq<string> := [];
    var i := 0;
    while i < |types|
      invariant 0 <= i <= |types|
      invariant Headed(displayType, types[..i], contents[..i]) == Ok(plainTextList)
    {
      var content := get(types[i]);
      if content.Err? {
        HeadedStepErr(displayType, types, contents, i, plainTextList);
        return Err(content.error);
      }
      HeadedStep(displayType, types, contents, i, plainTextList);
      if content.value != "" {
        plainTextList := plainTextList + [Prefix(displayType, types[i]) + content.value];
      }
      i := i + 1;
    }
    assert types[..i] == types && contents[..i] == contents;
    return Ok(plainTextList);
  }

  /** The display data of one entry for a history. The latest reply is
      read inside the loop over content types, so an empty history raises
      IndexError only for an entry that has content types to read. */
  function LatestData(h: seq<SrcDataModel.Conversation>, entry: SrcDataModel.DisplayContentType): Result<DisplayData>
  {
    if h == [] then (if entry.contentTypes == [] then DisplayDataOf(JNull, entry) else Err(PyIndexError))
    else DisplayDataOf(h[|h| - 1].response, entry)
  }

  /** An entry without content types shows empty data whatever the
      history; an entry with some needs a reply to read. */
  lemma LatestDataEmpty(h: seq<SrcDataModel.Conversation>, entry: SrcDataModel.DisplayContentType)
    ensures entry.contentTypes == [] ==>
              LatestData(h, entry) == Ok(if entry.displayType == "text" then TextData("") else ImageData(""))
    ensures h == [] && entry.contentTypes != [] ==> LatestData(h, entry) == Err(PyIndexError)
  {
    if entry.contentTypes == [] {
      var raw := if h == [] then JNull else h[|h| - 1].response;
      assert Parts(raw, entry.displayType, []) == Ok([]);
    }
  }

  /** `get_display_data`: the headed parts of the latest reply, joined as
      text or as the markdown of an image. */
  method GetDisplayData(user: SrcDataModel.UserData, entry: SrcDataModel.DisplayContentType) returns (r: Result<DisplayData>)
    requires entry.displayType in SrcDataModel.DisplayTypes
    ensures user.history == [] && entry.contentTypes != [] ==> r == Err(PyIndexError)
    ensures entry.contentTypes == [] ==> r == Ok(if entry.displayType == "text" then TextData("") else ImageData(""))
    ensures user.history != [] ==> r == DisplayDataOf(user.history[|user.history| - 1].response, entry)
    ensures r == LatestData(user.history, entry)
  {
    LatestDataEmpty(user.history, entry);
    var parts: Result<seq<string>>;
    if entry.contentTypes == [] {
      parts := Ok([]);
    } else {
      var latest := user.LatestConversation();
      if latest.Err? {
        return Err(latest.error);
      }
      parts := CollectParts(ContentOf(latest.value.response), entry.displayType, entry.contentTypes);
    }
    if parts.Err? {
      return Err(parts.error);
    }
    if entry.displayType == "text" {
      return Ok(TextData(Join(parts.value, "\n\n")));
    }
    return Ok(ImageData(Join(parts.value, "\n\n---\n\n")));
  }

  // ------------------------------------------------------------------
  // The ask and store steps
  // ------------------------------------------------------------------

  /** The sender record built from a OneBot event. */
  function SenderOf(userId: int, nickname: string): (s: SrcDataModel.Sender)
    ensures s.userId == userId
    ensures nickname != "" ==> s.userName == nickname
    ensures nickname == "" ==> s.userName == "<未知的的用户名>"
  {
    SrcDataModel.Sender(userId, if nickname == "" then "<未知的的用户名>" else nickname)
  }

  /** `get_chatbot`: reuses the user's client, or creates one bound to the
      current cookies file; `fails` says whether creating it raises, in
      which case a notice is sent and the error re-raised. */
  method GetChatbot(data: SrcDataModel.PluginData, user: SrcDataModel.UserData, fails: bool)
      returns (r: Result<SrcDataModel.Chatbot>, notices: seq<string>)
    modifies user
    ensures old(user.chatbot).Some? ==> r == Ok(old(user.chatbot).value) && user.chatbot == old(user.chatbot) && notices == []
    ensures old(user.chatbot).None? && !fails ==>
              r == Ok(SrcDataModel.Chatbot(data.currentCookiesFilePath)) && user.chatbot == Some(r.value) && notices == []
    ensures old(user.chatbot).None? && fails ==> r == Err(PyException) && user.chatbot == None && notices == ["<无法创建Chatbot>"]
    ensures user.sender == old(user.sender) && user.history == old(user.history) && user.isWaiting == old(user.isWaiting)
  {
    if user.chatbot.None? {
      if fails {
        return Err(PyException), ["<无法创建Chatbot>"];
      }
      user.chatbot := Some(SrcDataModel.Chatbot(data.currentCookiesFilePath));
    }
    return Ok(user.chatbot.value), [];
  }

  /** `get_bing_response`: raises the waiting flag, asks (`reply` is the
      answer, `None` when asking raised), and lowers the flag however the
      ask ends. `waitingDuringAsk` is the flag as the ask saw it. */
  method GetBingResponse(user: SrcDataModel.UserData, reply: Option<Json>)
      returns (r: Result<Json>, notices: seq<string>, ghost waitingDuringAsk: bool)
    modifies user
    ensures waitingDuringAsk && !user.isWaiting
    ensures reply.Some? ==> r == Ok(reply.value) && notices == []
    ensures reply.None? ==> r == Err(PyException) && notices == ["<无法询问，如果出现多次请试刷新>"]
    ensures user.sender == old(user.sender) && user.chatbot == old(user.chatbot) && user.history == old(user.history)
  {
    user.isWaiting := true;
    waitingDuringAsk := user.isWaiting;
    if reply.None? {
      r, notices := Err(PyException), ["<无法询问，如果出现多次请试刷新>"];
    } else {
      r, notices := Ok(reply.value), [];
    }
    user.isWaiting := false;
  }

  /** How a handler goes on after storing a reply. */
  datatype Outcome =
    /** The reply was accepted and stored; go on to display it. */
    | Stored
    /** `new_chat_handler` is re-entered, then the handler finishes. */
    | Refresh
    /** `matcher.finish`: the handler ends with this final message. */
    | Finish(final: Final)
    /** An exception escapes the handler. */
    | Raise(error: Exc)

  /** A final message: none, plain text, or text quoting the event. */
  datatype Final = NoMessage | Plain(text: string) | Quoted(text: string)

  /** The notices before an automatic refresh, as written: both lines test
      for the conversation limit, so the limit sends both and an expired
      session sends neither. */
  function RefreshNoticesAsWritten(e: Exc): (notices: seq<string>)
    ensures e.ConversationReachLimit? ==> |notices| == 2
    ensures !e.ConversationReachLimit? ==> notices == []
  {
    (if e.ConversationReachLimit? then ["检测到达到对话上限，将自动刷新对话"] else [])
    + (if e.ConversationReachLimit? then ["检测到达到对话过期，将自动刷新对话"] else [])
  }

  /** The notices as intended: one per cause. */
  function RefreshNotices(e: Exc): (notices: seq<string>)
    ensures e.ConversationReachLimit? ==> notices == ["检测到达到对话上限，将自动刷新对话"]
    ensures e.InvalidSession? ==> notices == ["检测到达到对话过期，将自动刷新对话"]
  {
    if e.ConversationReachLimit? then ["检测到达到对话上限，将自动刷新对话"]
    else if e.InvalidSession? then ["检测到达到对话过期，将自动刷新对话"]
    else []
  }

  /** An expired session is refreshed silently as written, and a reached
      limit is announced as an expired session too. */
  lemma RefreshNoticesDiffer(num: Json, max: Json)
    ensures RefreshNoticesAsWritten(InvalidSession) == [] != RefreshNotices(InvalidSession)
    ensures RefreshNoticesAsWritten(ConversationReachLimit(num, max))
            == RefreshNotices(ConversationReachLimit(num, max)) + RefreshNotices(InvalidSession)
  {
  }

  /** The outcome of storing a reply once its classification is known,
      for every case but the cookie switch. */
  function Dispatch(verdict: Verdict, config: SrcDataModel.PluginConfig): (o: Outcome)
    requires !(verdict.Rejected? && verdict.error == AccountReachLimit && config.autoSwitchCookies)
    ensures o == Stored <==> verdict.Accepted?
    ensures o == Refresh <==> verdict.Rejected? && (verdict.error.ConversationReachLimit? || verdict.error == InvalidSession)
                              && config.autoRefreshConversation
    ensures o.Raise? <==> verdict.Rejected? && !IsResponseError(verdict.error)
  {
    match verdict
    case Accepted(_) => Stored
    case Rejected(e) =>
      if e == AccountReachLimit then Finish(Quoted("<请尝联系管理员>"))
      else if e.ConversationReachLimit? || e == InvalidSession then
        (if config.autoRefreshConversation then Refresh else Finish(Quoted("<请尝试刷新>")))
      else if IsResponseError(e) then Finish(Quoted("<处理响应值值时出错>"))
      else Raise(e)
  }

  /** The loop over every stored session that clears it for `sender`,
      keeping only its waiting flag and last-use time. */
  method ResetSessions(users: set<SrcDataModel.UserData>, sender: SrcDataModel.Sender)
    modifies users
    ensures forall u :: u in users ==> u.history == [] && u.chatbot == None && u.sender == sender
    ensures forall u :: u in users ==> u.isWaiting == old(u.isWaiting) && u.lastTime == old(u.lastTime)
  {
    var remaining := users;
    while remaining != {}
      invariant remaining <= users
      invariant forall u :: u in users - remaining ==> u.history == [] && u.chatbot == None && u.sender == sender
      invariant forall u :: u in users ==> u.isWaiting == old(u.isWaiting) && u.lastTime == old(u.lastTime)
      invariant forall u :: u in remaining ==> unchanged(u)
      decreases remaining
    {
      var u :| u in remaining;
      u.Clear(sender);
      remaining := remaining - {u};
    }
  }

  /** `store_response`: classify the reply and append it to the history when
      accepted; otherwise dispatch on the rejection. On a throttled account
      with automatic switching, rotate the cookies (`gathered` as in
      `SwitchToUsableCookies`) and, for a OneBot event, reset every stored
      session with the event's sender. */
  method StoreResponse(data: SrcDataModel.PluginData, user: SrcDataModel.UserData, event: Event,
                       config: SrcDataModel.PluginConfig, question: string, response: Json,
                       gathered: Option<seq<bool>>)
      returns (o: Outcome, notices: seq<string>)
    modifies data, user, data.userDataDict.Values
    ensures o == Stored <==> SrcDataModel.Classify(response).Accepted?
    ensures o == Stored ==>
              user.history == old(user.history) + [SrcDataModel.Conversation(question, SrcDataModel.Classify(response).raw)]
    ensures var v := SrcDataModel.Classify(response);
            !(v.Rejected? && v.error == AccountReachLimit && config.autoSwitchCookies) ==>
              o == Dispatch(v, config) && unchanged(data) && unchanged(old(data.userDataDict.Values) - {user})
    ensures o.Refresh? ==> notices == RefreshNotices(SrcDataModel.Classify(response).error)
    ensures var v := SrcDataModel.Classify(response);
            !(v.Rejected? && v.error == AccountReachLimit && config.autoSwitchCookies) && !o.Refresh? ==> notices == []
    ensures var v := SrcDataModel.Classify(response);
            v.Rejected? && v.error == AccountReachLimit && config.autoSwitchCookies ==>
              && notices == ["检测到达到账户上限，将自动刷新账户，所有对话将被清空"]
              && !data.isSwitchingCookies
              && (gathered.None? ==> o == Raise(PyTypeError) && data.currentCookiesFilePath == old(data.currentCookiesFilePath))
              && (gathered.Some? ==>
                    match FirstUsable(gathered.value, |old(data.cookiesFilePathList)|)
                    case Some(k) => o == Finish(Plain("已切换cookies")) && data.currentCookiesFilePath == old(data.cookiesFilePathList)[k]
                    case None => o == Finish(Plain("无可用cookies")) && data.currentCookiesFilePath == old(data.currentCookiesFilePath))
    ensures o != Stored && o != Finish(Plain("已切换cookies")) ==> user.history == old(user.history)
    ensures o == Finish(Plain("已切换cookies")) && event.OneBot? ==>
              forall u :: u in old(data.userDataDict.Values) ==>
                u.history == [] && u.chatbot == None && u.sender == SenderOf(event.userId, event.nickname)
    ensures o == Stored || user.history == old(user.history) || user.history == []
    ensures user.isWaiting == old(user.isWaiting)
    ensures data.userDataDict == old(data.userDataDict) && data.replyMessageIdDict == old(data.replyMessageIdDict)
  {
    var verdict := SrcDataModel.Classify(response);
    notices := [];
    if verdict.Accepted? {
      user.history := user.history + [SrcDataModel.Conversation(question, verdict.raw)];
      return Stored, notices;
    }
    var e := verdict.error;
    if !(e == AccountReachLimit && config.autoSwitchCookies) {
      o := Dispatch(verdict, config);
      if o == Refresh {
        notices := RefreshNotices(e);
      }
      return;
    }
    notices := ["检测到达到账户上限，将自动刷新账户，所有对话将被清空"];
    var users := data.userDataDict.Values;
    var switched := SwitchToUsableCookies(data, gathered);
    if switched.Err? {
      return Raise(switched.error), notices;
    }
    if !switched.value {
      return Finish(Plain("无可用cookies")), notices;
    }
    if event.OneBot? {
      ResetSessions(users, SenderOf(event.userId, event.nickname));
    }
    return Finish(Plain("已切换cookies")), notices;
  }
}
