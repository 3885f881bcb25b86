/** The OneBot v11 helpers of the current package
    (src/plugins/.../onebotv11/utils.py): session lookup, reply wrapping,
    the history bundle, the display messages and the continue-chat rule. */
module SrcOnebotUtils {
  import opened Json
  import opened Errors
  import opened Messages
  import SrcDataModel
  import SrcCommonUtils

  /** `default_get_user_data`: the session stored under `UserInfo('qq', id)`,
      created with the event's sender when there is none. An existing session
      is returned as it is; its sender is not refreshed. `lastTime` stands for
      the class-level default of `last_time`. */
  method DefaultGetUserData(data: SrcDataModel.PluginData, userId: int, nickname: string, lastTime: int)
      returns (u: SrcDataModel.UserData)
    modifies data
    ensures SrcDataModel.UserInfo("qq", userId) in data.userDataDict
    ensures data.userDataDict[SrcDataModel.UserInfo("qq", userId)] == u
    ensures SrcDataModel.UserInfo("qq", userId) in old(data.userDataDict) ==>
              u == old(data.userDataDict)[SrcDataModel.UserInfo("qq", userId)] && data.userDataDict == old(data.userDataDict)
    ensures SrcDataModel.UserInfo("qq", userId) !in old(data.userDataDict) ==>
              fresh(u) && data.userDataDict == old(data.userDataDict)[SrcDataModel.UserInfo("qq", userId) := u]
              && u.sender == SrcCommonUtils.SenderOf(userId, nickname)
              && u.history == [] && !u.isWaiting && u.chatbot.None?
    ensures data.replyMessageIdDict == old(data.replyMessageIdDict)
    ensures data.cookiesFilePathList == old(data.cookiesFilePathList)
    ensures data.currentCookiesFilePath == old(data.currentCookiesFilePath)
    ensures data.isSwitchingCookies == old(data.isSwitchingCookies)
  {
    var key := SrcDataModel.UserInfo("qq", userId);
    var fallback := new SrcDataModel.UserData(SrcCommonUtils.SenderOf(userId, nickname), lastTime);
    if key in data.userDataDict {
      return data.userDataDict[key];
    }
    data.userDataDict := data.userDataDict[key := fallback];
    return fallback;
  }

  /** Looking a user up twice gives the same session, and the store grows by
      at most that one entry. */
  method DefaultGetUserDataTwice(data: SrcDataModel.PluginData, userId: int, nickname: string, lastTime: int)
      returns (first: SrcDataModel.UserData, second: SrcDataModel.UserData)
    modifies data
    ensures first == second
    ensures data.userDataDict.Keys == old(data.userDataDict.Keys) + {SrcDataModel.UserInfo("qq", userId)}
    ensures forall k :: k in old(data.userDataDict) ==> data.userDataDict[k] == old(data.userDataDict)[k]
  {
    first := DefaultGetUserData(data, userId, nickname, lastTime);
    second := DefaultGetUserData(data, userId, nickname, lastTime);
  }

  /** `reply_out`: in a guild channel the content alone, elsewhere the
      content quoting the triggering message. */
  function ReplyOut(kind: OneBotKind, messageId: int, content: Message): (m: Message)
    ensures |m| >= |content| && m[|m| - |content|..] == content
    ensures kind.GuildChat? <==> |m| == |content|
    ensures !kind.GuildChat? ==> m[0] == ReplyTo(messageId)
  {
    if kind.GuildChat? then content else [ReplyTo(messageId)] + content
  }

  // ------------------------------------------------------------------
  // history_out
  // ------------------------------------------------------------------

  /** The two nodes one conversation becomes. */
  function ConversationNodes(sender: SrcDataModel.Sender, selfId: int, c: SrcDataModel.Conversation): Result<Message>
  {
    match SrcDataModel.ContentAnswer(c.response)
    case Err(e) => Err(e)
    case Ok(answer) => Ok([Node(sender.userId, sender.userName, [Text(c.ask)]), Node(selfId, "Bing", [Text(answer)])])
  }

  /** Forming one conversation's nodes, as a function of the conversation. */
  function NodesOf(sender: SrcDataModel.Sender, selfId: int): SrcDataModel.Conversation -> Result<Message>
  {
    c => ConversationNodes(sender, selfId, c)
  }

  /** The bundle for a history, stopping at the first conversation whose
      answer cannot be read. */
  function HistoryNodes(sender: SrcDataModel.Sender, selfId: int, h: seq<SrcDataModel.Conversation>): Result<Message>
  {
    CollectConcat(NodesOf(sender, selfId), h)
  }

  /** The bundle has two nodes per conversation, in history order, and
      exists exactly when every conversation's nodes can be formed. */
  lemma HistoryNodesShape(sender: SrcDataModel.Sender, selfId: int, h: seq<SrcDataModel.Conversation>)
    ensures HistoryNodes(sender, selfId, h).Ok? <==> forall i :: 0 <= i < |h| ==> ConversationNodes(sender, selfId, h[i]).Ok?
    ensures HistoryNodes(sender, selfId, h).Ok? ==>
              var m := HistoryNodes(sender, selfId, h).value;
              |m| == 2 * |h|
              && forall i :: 0 <= i < |h| ==> m[2 * i..2 * i + 2] == ConversationNodes(sender, selfId, h[i]).value
  {
    forall i | 0 <= i < |h|
      ensures NodesOf(sender, selfId)(h[i]) == ConversationNodes(sender, selfId, h[i])
      ensures ConversationNodes(sender, selfId, h[i]).Ok? ==> |ConversationNodes(sender, selfId, h[i]).value| == 2
    {
      ConversationNodesLength(sender, selfId, h[i]);
    }
    CollectPairsShape(NodesOf(sender, selfId), h);
  }

  lemma ConversationNodesLength(sender: SrcDataModel.Sender, selfId: int, c: SrcDataModel.Conversation)
    ensures ConversationNodes(sender, selfId, c).Ok? ==> |ConversationNodes(sender, selfId, c).value| == 2
  {
  }

  /** A conversation becomes the user's question, then Bing's answer; the
      nodes exist exactly when the stored answer can be read. */
  lemma ConversationNodesContent(sender: SrcDataModel.Sender, selfId: int, c: SrcDataModel.Conversation)
    ensures ConversationNodes(sender, selfId, c).Ok? <==> SrcDataModel.ContentAnswer(c.response).Ok?
    ensures ConversationNodes(sender, selfId, c).Ok? ==>
              ConversationNodes(sender, selfId, c).value
              == [Node(sender.userId, sender.userName, [Text(c.ask)]),
                  Node(selfId, "Bing", [Text(SrcDataModel.ContentAnswer(c.response).value)])]
  {
  }

  /** `history_out`: walks the history, adding two nodes per conversation. */
  method HistoryOut(selfId: int, user: SrcDataModel.UserData) returns (r: Result<Message>)
    ensures r == HistoryNodes(user.sender, selfId, user.history)
  {
    var h := user.history;
    var msg: Message := [];
    var i := 0;
    while i < |h|
      invariant 0 <= i <= |h|
      invariant HistoryNodes(user.sender, selfId, h[..i]) == Ok(msg)
    {
      var answer := SrcDataModel.ContentAnswer(h[i].response);
      if answer.Err? {
        HistoryStepErr(user.sender, selfId, h, i, msg);
        return Err(answer.error);
      }
      HistoryStepOk(user.sender, selfId, h, i, msg);
      msg := msg + [Node(user.sender.userId, user.sender.userName, [Text(h[i].ask)])];
      msg := msg + [Node(selfId, "Bing", [Text(answer.value)])];
      i := i + 1;
    }
    assert h[..i] == h;
    return Ok(msg);
  }

  /** One more readable conversation adds its two nodes. */
  lemma HistoryStepOk(sender: SrcDataModel.Sender, selfId: int, h: seq<SrcDataModel.Conversation>, i: nat, msg: Message)
    requires i < |h| && HistoryNodes(sender, selfId, h[..i]) == Ok(msg)
    requires SrcDataModel.ContentAnswer(h[i].response).Ok?
    ensures HistoryNodes(sender, selfId, h[..i + 1])
            == Ok(msg + [Node(sender.userId, sender.userName, [Text(h[i].ask)])]
                      + [Node(selfId, "Bing", [Text(SrcDataModel.ContentAnswer(h[i].response).value)])])
  {
    assert h[..i + 1][..i] == h[..i];
    ConversationNodesContent(sender, selfId, h[i]);
    var ask := Node(sender.userId, sender.userName, [Text(h[i].ask)]);
    var answer := Node(selfId, "Bing", [Text(SrcDataModel.ContentAnswer(h[i].response).value)]);
    assert HistoryNodes(sender, selfId, h[..i + 1]) == Ok(msg + [ask, answer]);
    assert msg + [ask] + [answer] == msg + [ask, answer];
  }

  /** An unreadable conversation makes the whole bundle fail with its error. */
  lemma HistoryStepErr(sender: SrcDataModel.Sender, selfId: int, h: seq<SrcDataModel.Conversation>, i: nat, msg: Message)
    requires i < |h| && HistoryNodes(sender, selfId, h[..i]) == Ok(msg)
    requires SrcDataModel.ContentAnswer(h[i].response).Err?
    ensures HistoryNodes(sender, selfId, h) == Err(SrcDataModel.ContentAnswer(h[i].response).error)
  {
    assert h[..i + 1][..i] == h[..i];
    assert HistoryNodes(sender, selfId, h[..i + 1]) == Err(SrcDataModel.ContentAnswer(h[i].response).error);
    CollectConcatErrExtends(NodesOf(sender, selfId), h, i + 1);
  }

  // ------------------------------------------------------------------
  // Display messages
  // ------------------------------------------------------------------

  /** The message a display entry's data becomes; an image carries the
      markdown it is rendered from. */
  function MessageOf(d: SrcCommonUtils.DisplayData): Message
  {
    match d
    case TextData(t) => [Text(t)]
    case ImageData(md) => [Image(md)]
  }

  /** The message of one display entry for the latest conversation. */
  function DisplayMessageOf(h: seq<SrcDataModel.Conversation>, entry: SrcDataModel.DisplayContentType): Result<Message>
  {
    match SrcCommonUtils.LatestData(h, entry)
    case Err(e) => Err(e)
    case Ok(d) => Ok(MessageOf(d))
  }

  /** Building one entry's message, as a function of the entry. */
  function DisplayOf(h: seq<SrcDataModel.Conversation>): SrcDataModel.DisplayContentType -> Result<Message>
  {
    entry => DisplayMessageOf(h, entry)
  }

  /** The messages for the display entries, stopping at the first that
      raises. */
  function DisplayList(h: seq<SrcDataModel.Conversation>, entries: seq<SrcDataModel.DisplayContentType>): Result<seq<Message>>
  {
    Collect(DisplayOf(h), entries)
  }

  /** One message per configured entry, in configuration order, whenever no
      entry raises. */
  lemma DisplayListShape(h: seq<SrcDataModel.Conversation>, entries: seq<SrcDataModel.DisplayContentType>)
    ensures DisplayList(h, entries).Ok? <==> forall i :: 0 <= i < |entries| ==> SrcCommonUtils.LatestData(h, entries[i]).Ok?
    ensures DisplayList(h, entries).Ok? ==>
              |DisplayList(h, entries).value| == |entries|
              && forall i :: 0 <= i < |entries| ==> DisplayList(h, entries).value[i] == MessageOf(SrcCommonUtils.LatestData(h, entries[i]).value)
  {
    CollectShape(DisplayOf(h), entries);
    assert forall i :: 0 <= i < |entries| ==> DisplayOf(h)(entries[i]) == DisplayMessageOf(h, entries[i]);
  }

  /** `get_display_message`: the display data of one entry as a message. */
  method GetDisplayMessage(user: SrcDataModel.UserData, entry: SrcDataModel.DisplayContentType) returns (r: Result<Message>)
    requires entry.displayType in SrcDataModel.DisplayTypes
    ensures r.Err? <==> SrcCommonUtils.LatestData(user.history, entry).Err?
    ensures r.Err? ==> r.error == SrcCommonUtils.LatestData(user.history, entry).error
    ensures r.Ok? ==> r.value == MessageOf(SrcCommonUtils.LatestData(user.history, entry).value)
    ensures user.history == [] && entry.contentTypes != [] ==> r == Err(PyIndexError)
    ensures entry.contentTypes == [] ==> r == Ok(if entry.displayType == "text" then [Text("")] else [Image("")])
  {
    SrcCommonUtils.LatestDataEmpty(user.history, entry);
    var data := SrcCommonUtils.GetDisplayData(user, entry);
    if data.Err? {
      return Err(data.error);
    }
    return Ok(MessageOf(data.value));
  }

  /** `get_display_message_list`: one message per configured entry. */
  method GetDisplayMessageList(user: SrcDataModel.UserData, entries: seq<SrcDataModel.DisplayContentType>)
      returns (r: Result<seq<Message>>)
    requires forall i :: 0 <= i < |entries| ==> entries[i].displayType in SrcDataModel.DisplayTypes
    ensures r == DisplayList(user.history, entries)
  {
    var msgList: seq<Message> := [];
    var i := 0;
    while i < |entries|
      invariant 0 <= i <= |entries|
      invariant DisplayList(user.history, entries[..i]) == Ok(msgList)
    {
      var msg := GetDisplayMessage(user, entries[i]);
      assert msg == DisplayOf(user.history)(entries[i]);
      CollectStep(DisplayOf(user.history), entries, i);
      if msg.Err? {
        CollectErrExtends(DisplayOf(user.history), entries, i + 1);
        return Err(msg.error);
      }
      msgList := msgList + [msg.value];
      i := i + 1;
    }
    assert entries[..i] == entries;
    return Ok(msgList);
  }

  /** The messages wrapped as forward nodes from the user. */
  function Forward(sender: SrcDataModel.Sender, msgs: seq<Message>): (m: Message)
    ensures |m| == |msgs| && forall i :: 0 <= i < |msgs| ==> m[i] == Node(sender.userId, sender.userName, msgs[i])
  {
    seq(|msgs|, i requires 0 <= i < |msgs| => Node(sender.userId, sender.userName, msgs[i]))
  }

  /** Wrapping one more message adds one more node. */
  lemma ForwardSnoc(sender: SrcDataModel.Sender, msgs: seq<Message>, m: Message)
    ensures Forward(sender, msgs + [m]) == Forward(sender, msgs) + [Node(sender.userId, sender.userName, m)]
  {
  }

  /** `get_display_message_forward`: the same messages, each as one node
      sent in the user's name. */
  method GetDisplayMessageForward(user: SrcDataModel.UserData, entries: seq<SrcDataModel.DisplayContentType>)
      returns (r: Result<Message>)
    requires forall i :: 0 <= i < |entries| ==> entries[i].displayType in SrcDataModel.DisplayTypes
    ensures DisplayList(user.history, entries).Err? ==> r == Err(DisplayList(user.history, entries).error)
    ensures DisplayList(user.history, entries).Ok? ==> r == Ok(Forward(user.sender, DisplayList(user.history, entries).value))
  {
    var nodes: Message := [];
    var i := 0;
    while i < |entries|
      invariant 0 <= i <= |entries|
      invariant DisplayList(user.history, entries[..i]).Ok?
      invariant nodes == Forward(user.sender, DisplayList(user.history, entries[..i]).value)
    {
      var msg := GetDisplayMessage(user, entries[i]);
      assert msg == DisplayOf(user.history)(entries[i]);
      CollectStep(DisplayOf(user.history), entries, i);
      if msg.Err? {
        CollectErrExtends(DisplayOf(user.history), entries, i + 1);
        return Err(msg.error);
      }
      ForwardSnoc(user.sender, DisplayList(user.history, entries[..i]).value, msg.value);
      nodes := nodes + [Node(user.sender.userId, user.sender.userName, msg.value)];
      i := i + 1;
    }
    assert entries[..i] == entries;
    return Ok(nodes);
  }

  // ------------------------------------------------------------------
  // _rule_continue_chat
  // ------------------------------------------------------------------

  /** `_rule_continue_chat`: the message is addressed to the bot, quotes an
      answer the bot recorded, and is not itself a command. The command
      settings are listed in their iteration order. */
  function RuleContinueChat(toMe: bool, replyTo: Option<int>, index: map<int, SrcDataModel.UserInfo>, plainText: string,
                            starts: seq<string>, chat: seq<string>, newChat: seq<string>, history: seq<string>): (ok: bool)
    ensures ok <==> toMe && replyTo.Some? && replyTo.value in index
                    && !SrcCommonUtils.StartsWithCommand(plainText, set p | p in starts,
                          (set c | c in chat) + (set c | c in newChat) + (set c | c in history))
  {
    SrcCommonUtils.IsConflictIff(plainText, starts, chat, newChat, history);
    toMe && replyTo.Some? && replyTo.value in index
    && !SrcCommonUtils.IsConflict(plainText, starts, chat, newChat, history)
  }
}
