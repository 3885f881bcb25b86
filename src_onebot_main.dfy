/** The OneBot v11 command handlers of the current package
    (src/plugins/.../onebotv11/main.py): chat, new chat, history, and the
    reply-to-continue handler. A handler's run is modelled as a method over
    the session store and the outside world; how it ends is its `End`. */
module SrcOnebotMain {
  import opened Json
  import opened Errors
  import opened Messages
  import SrcDataModel
  import SrcCommonUtils
  import SrcOnebotCheck
  import SrcOnebotUtils
  import Effects

  /** How a handler run ends: it returns, `matcher.finish` ends it (after
      sending the finishing message, if any), or an exception escapes. */
  datatype End = Returned | Finished | Raised(error: Exc)

  /** The configured display entries are all `text` or `image`, as the
      configuration validator guarantees. */
  predicate ValidDisplay(config: SrcDataModel.PluginConfig)
  {
    forall i :: 0 <= i < |config.displayContentTypes| ==>
      config.displayContentTypes[i].displayType in SrcDataModel.DisplayTypes
  }

  /** `reply_out(event, text)`. */
  function Quote(event: Event, text: string): Message
    requires event.OneBot?
  {
    SrcOnebotUtils.ReplyOut(event.kind, event.messageId, [Text(text)])
  }

  /** The session key of the event's sender. */
  function KeyOf(event: Event): SrcDataModel.UserInfo
    requires event.OneBot?
  {
    SrcDataModel.UserInfo("qq", event.userId)
  }

  /** The answer messages as sent directly: the first one quotes the event. */
  function Direct(event: Event, msgs: seq<Message>): (sent: seq<Message>)
    requires event.OneBot?
    ensures |sent| == |msgs|
    ensures msgs != [] ==> sent[0] == SrcOnebotUtils.ReplyOut(event.kind, event.messageId, msgs[0])
    ensures forall i :: 1 <= i < |msgs| ==> sent[i] == msgs[i]
  {
    if msgs == [] then [] else [SrcOnebotUtils.ReplyOut(event.kind, event.messageId, msgs[0])] + msgs[1..]
  }

  /** The reply index after the answer messages with ids `lo` up to `hi`
      were recorded as answers to `key`: those ids point at `key`, and every
      other entry is an old one. */
  predicate Recorded(before: map<int, SrcDataModel.UserInfo>, after: map<int, SrcDataModel.UserInfo>,
                     lo: int, hi: int, key: SrcDataModel.UserInfo)
  {
    (forall k :: lo <= k < hi ==> k in after && after[k] == key)
    && (forall k :: k in after ==> (k in before && after[k] == before[k]) || lo <= k < hi)
    && (forall k :: k in before ==> k in after)
  }

  /** Every entry of the reply index is an old one or points at `key`. */
  predicate IndexGrows(before: map<int, SrcDataModel.UserInfo>, after: map<int, SrcDataModel.UserInfo>, key: SrcDataModel.UserInfo)
  {
    forall k :: k in after ==> (k in before && after[k] == before[k]) || after[k] == key
  }

  /** `matcher.send(reply_out(event, text))` for each text, in order. */
  method SendQuoted(world: Effects.World, event: Event, texts: seq<string>)
    requires event.OneBot?
    modifies world
    ensures world.sent == old(world.sent) + seq(|texts|, i requires 0 <= i < |texts| => Quote(event, texts[i]))
    ensures world.nextMessageId == old(world.nextMessageId) + |texts|
    ensures world.deleted == old(world.deleted) && world.replies == old(world.replies) && world.asked == old(world.asked)
  {
    var i := 0;
    while i < |texts|
      invariant 0 <= i <= |texts|
      invariant world.sent == old(world.sent) + seq(i, j requires 0 <= j < i => Quote(event, texts[j]))
      invariant world.nextMessageId == old(world.nextMessageId) + i
      invariant world.deleted == old(world.deleted) && world.replies == old(world.replies) && world.asked == old(world.asked)
    {
      var _ := world.Send(Quote(event, texts[i]));
      i := i + 1;
    }
  }

  /** The frame of a send step: nothing but the messages sent and the reply
      index changes. */
  twostate predicate SendFrame(data: SrcDataModel.PluginData, world: Effects.World)
    reads data, world
  {
    data.userDataDict == old(data.userDataDict) && data.isSwitchingCookies == old(data.isSwitchingCookies)
    && data.cookiesFilePathList == old(data.cookiesFilePathList)
    && data.currentCookiesFilePath == old(data.currentCookiesFilePath)
    && world.deleted == old(world.deleted) && world.replies == old(world.replies) && world.asked == old(world.asked)
  }

  /** Sending the answer messages one by one, the first quoting the event,
      and recording each as an answer to the sender. */
  method SendDirect(data: SrcDataModel.PluginData, world: Effects.World, event: Event, msgs: seq<Message>)
    requires event.OneBot?
    modifies data, world
    ensures world.sent == old(world.sent) + Direct(event, msgs)
    ensures world.nextMessageId == old(world.nextMessageId) + |msgs|
    ensures Recorded(old(data.replyMessageIdDict), data.replyMessageIdDict, old(world.nextMessageId), world.nextMessageId, KeyOf(event))
    ensures SendFrame(data, world)
  {
    var key := KeyOf(event);
    ghost var lo := world.nextMessageId;
    var i := 0;
    while i < |msgs|
      invariant 0 <= i <= |msgs|
      invariant world.sent == old(world.sent) + Direct(event, msgs)[..i]
      invariant world.nextMessageId == lo + i
      invariant Recorded(old(data.replyMessageIdDict), data.replyMessageIdDict, lo, lo + i, key)
      invariant SendFrame(data, world)
    {
      var out := if i == 0 then SrcOnebotUtils.ReplyOut(event.kind, event.messageId, msgs[i]) else msgs[i];
      assert Direct(event, msgs)[..i + 1] == Direct(event, msgs)[..i] + [out];
      var id := world.Send(out);
      data.replyMessageIdDict := data.replyMessageIdDict[id := key];
      i := i + 1;
    }
    assert Direct(event, msgs)[..i] == Direct(event, msgs);
  }

  /** Sending the answer: the display messages for the latest reply, as one
      forwarded bundle (only in groups and private chats) or one message per
      display entry, each recorded in the reply index as an answer to the
      sender. An accessor error is reported; any other error escapes. */
  method SendAnswer(data: SrcDataModel.PluginData, config: SrcDataModel.PluginConfig, world: Effects.World,
                    event: Event, user: SrcDataModel.UserData) returns (end: End)
    requires event.OneBot? && ValidDisplay(config)
    modifies data, world
    ensures var r := SrcOnebotUtils.DisplayList(user.history, config.displayContentTypes);
            r.Err? ==> data.replyMessageIdDict == old(data.replyMessageIdDict)
                       && (IsResponseError(r.error) ==>
                             end == Finished && world.sent == old(world.sent) + [Quote(event, "<调用content_simple时出错>")])
                       && (!IsResponseError(r.error) ==> end == Raised(r.error) && world.sent == old(world.sent))
    ensures var r := SrcOnebotUtils.DisplayList(user.history, config.displayContentTypes);
            r.Ok? && config.displayInForward ==>
              end == Returned && data.replyMessageIdDict == old(data.replyMessageIdDict)
              && world.sent == old(world.sent) + (if event.kind.GuildChat? then [] else [SrcOnebotUtils.Forward(user.sender, r.value)])
    ensures var r := SrcOnebotUtils.DisplayList(user.history, config.displayContentTypes);
            r.Ok? && !config.displayInForward ==>
              end == Returned && world.sent == old(world.sent) + Direct(event, r.value)
              && Recorded(old(data.replyMessageIdDict), data.replyMessageIdDict, old(world.nextMessageId),
                          world.nextMessageId, KeyOf(event))
    ensures IndexGrows(old(data.replyMessageIdDict), data.replyMessageIdDict, KeyOf(event))
    ensures SendFrame(data, world)
  {
    var entries := config.displayContentTypes;
    if config.displayInForward {
      var msg := SrcOnebotUtils.GetDisplayMessageForward(user, entries);
      if msg.Err? {
        end := Fail(world, event, msg.error);
        return;
      }
      if !event.kind.GuildChat? {
        var _ := world.Send(msg.value);
      }
      return Returned;
    }
    var msgList := SrcOnebotUtils.GetDisplayMessageList(user, entries);
    if msgList.Err? {
      end := Fail(world, event, msgList.error);
      return;
    }
    SendDirect(data, world, event, msgList.value);
    return Returned;
  }

  /** The `except BingChatResponseException` of the answer step. */
  method Fail(world: Effects.World, event: Event, e: Exc) returns (end: End)
    requires event.OneBot?
    modifies world
    ensures IsResponseError(e) ==> end == Finished && world.sent == old(world.sent) + [Quote(event, "<调用content_simple时出错>")]
    ensures !IsResponseError(e) ==> end == Raised(e) && world.sent == old(world.sent)
    ensures world.deleted == old(world.deleted) && world.replies == old(world.replies) && world.asked == old(world.asked)
  {
    if IsResponseError(e) {
      var _ := world.Send(Quote(event, "<调用content_simple时出错>"));
      return Finished;
    }
    return Raised(e);
  }

  /** The session store only gains the entry for `key`, if any. */
  predicate DictGrows(before: map<SrcDataModel.UserInfo, SrcDataModel.UserData>,
                      after: map<SrcDataModel.UserInfo, SrcDataModel.UserData>, key: SrcDataModel.UserInfo)
  {
    (forall k :: k in before ==> k in after && after[k] == before[k])
    && forall k :: k in after ==> k in before || k == key
  }

  /** A session's history after a chat turn: as it was, cleared by a cookie
      switch, or grown by one turn that asked `question`. */
  predicate HistoryStep(before: seq<SrcDataModel.Conversation>, after: seq<SrcDataModel.Conversation>, question: string)
  {
    after == before || after == []
    || (|after| == |before| + 1 && after[..|before|] == before && after[|before|].ask == question)
  }

  /** `bingchat_command_chat`. `help` is the help text, `userData` the
      session a reply-to-continue passes in, `depth` the re-entry depth and
      `lastTime` the `last_time` a new session is created with. The run
      stops at depth 3; an empty argument gets the help text; the admission
      check, the cookie switch and the waiting check can end it early; a
      session is looked up or created only once the first two have passed. */
  method Chat(data: SrcDataModel.PluginData, config: SrcDataModel.PluginConfig, world: Effects.World, help: string,
              event: Event, arg: string, userData: SrcDataModel.UserData?, depth: int, lastTime: int)
      returns (end: End)
    requires event.OneBot? && ValidDisplay(config)
    modifies data, world, data.userDataDict.Values, userData
    decreases if depth < 3 then 3 - depth else 0, 2
    ensures depth >= 3 ==> end == Returned && world.sent == old(world.sent) && data.userDataDict == old(data.userDataDict)
    ensures depth < 3 && arg == "" ==>
              end == Finished && world.sent == old(world.sent) + [[Text(help)]] && data.userDataDict == old(data.userDataDict)
    ensures var c := SrcOnebotCheck.CheckIfInList(SrcOnebotCheck.FilterOf(config), event.kind, event.subType, event.userId);
            depth < 3 && arg != "" && c.Err? ==>
              data.userDataDict == old(data.userDataDict)
              && (IsPluginError(c.error) ==> end == Finished && world.sent == old(world.sent) + [Quote(event, Describe(c.error))])
              && (!IsPluginError(c.error) ==> end == Raised(c.error) && world.sent == old(world.sent))
    ensures var c := SrcOnebotCheck.CheckIfInList(SrcOnebotCheck.FilterOf(config), event.kind, event.subType, event.userId);
            depth < 3 && arg != "" && c.Ok? && old(data.isSwitchingCookies) ==>
              end == Finished && world.sent == old(world.sent) + [Quote(event, "正在切换cookies，请稍后再试")]
              && data.userDataDict == old(data.userDataDict)
    ensures var c := SrcOnebotCheck.CheckIfInList(SrcOnebotCheck.FilterOf(config), event.kind, event.subType, event.userId);
            depth < 3 && arg != "" && c.Ok? && !old(data.isSwitchingCookies) && userData == null ==>
              KeyOf(event) in data.userDataDict
    ensures world.asked <= old(world.asked) + (if depth < 3 then 3 - depth else 0)
    ensures old(world.sent) <= world.sent
    ensures userData != null ==> data.userDataDict == old(data.userDataDict)
    ensures userData != null ==>
              userData.isWaiting == old(userData.isWaiting) && HistoryStep(old(userData.history), userData.history, arg)
    ensures userData == null && KeyOf(event) in old(data.userDataDict) ==>
              HistoryStep(old(data.userDataDict[KeyOf(event)].history), data.userDataDict[KeyOf(event)].history, arg)
    ensures DictGrows(old(data.userDataDict), data.userDataDict, KeyOf(event))
    ensures IndexGrows(old(data.replyMessageIdDict), data.replyMessageIdDict, KeyOf(event))
  {
    if depth >= 3 {
      return Returned;
    }
    if arg == "" {
      var _ := world.Send([Text(help)]);
      return Finished;
    }
    var admitted := SrcOnebotCheck.CheckIfInList(SrcOnebotCheck.FilterOf(config), event.kind, event.subType, event.userId);
    if admitted.Err? {
      if IsPluginError(admitted.error) {
        var _ := world.Send(Quote(event, Describe(admitted.error)));
        return Finished;
      }
      return Raised(admitted.error);
    }
    if data.isSwitchingCookies {
      var _ := world.Send(Quote(event, "正在切换cookies，请稍后再试"));
      return Finished;
    }
    var user := userData;
    if user == null {
      user := SrcOnebotUtils.DefaultGetUserData(data, event.userId, event.nickname, lastTime);
    }
    end := Converse(data, config, world, help, event, arg, user, depth, lastTime);
  }

  /** The question, as the backend's next reply answers it. */
  function NextReply(replies: seq<Option<Json>>): Option<Json>
  {
    if replies == [] then None else replies[0]
  }

  /** The asking part of a chat turn: the waiting check, the client, the
      "asking" notice and the question itself. It either yields the reply,
      or ends the run: a waiting session is told so, and a client that
      cannot be created or a question that raises escapes after a notice.
      The waiting flag and the history are as they were. */
  method AskBing(data: SrcDataModel.PluginData, config: SrcDataModel.PluginConfig, world: Effects.World,
                 event: Event, user: SrcDataModel.UserData) returns (response: Option<Json>, end: End)
    requires event.OneBot?
    modifies world, user
    ensures old(user.isWaiting) ==>
              response == None && end == Finished && world.sent == old(world.sent) + [Quote(event, Describe(IsWaiting))]
              && world.asked == old(world.asked)
    ensures !old(user.isWaiting) && old(user.chatbot).None? && world.createFails ==>
              response == None && end == Raised(PyException)
              && world.sent == old(world.sent) + [Quote(event, "<无法创建Chatbot>")] && world.asked == old(world.asked)
    ensures !old(user.isWaiting) && (old(user.chatbot).Some? || !world.createFails) ==>
              world.asked == old(world.asked) + 1
              && response == NextReply(old(world.replies))
              && (response.None? ==> end == Raised(PyException))
    ensures world.asked <= old(world.asked) + 1
    ensures old(world.sent) <= world.sent
    ensures user.isWaiting == old(user.isWaiting) && user.history == old(user.history) && user.sender == old(user.sender)
  {
    var waiting := SrcOnebotCheck.CheckIfUserIsWaiting(user);
    if waiting.Err? {
      var _ := world.Send(Quote(event, Describe(waiting.error)));
      return None, Finished;
    }
    var chatbot, notices := SrcCommonUtils.GetChatbot(data, user, world.createFails);
    SendQuoted(world, event, notices);
    if chatbot.Err? {
      return None, Raised(chatbot.error);
    }
    var askingId: Option<int> := None;
    if config.displayIsWaiting {
      var id := world.Send(Quote(event, "正在请求"));
      askingId := Some(id);
    }
    var reply := world.Ask();
    ghost var waitingDuringAsk;
    var r;
    r, notices, waitingDuringAsk := SrcCommonUtils.GetBingResponse(user, reply);
    SendQuoted(world, event, notices);
    if r.Err? {
      return None, Raised(r.error);
    }
    if askingId.Some? && !event.kind.GuildChat? {
      world.Delete(askingId.value);
    }
    return Some(r.value), Returned;
  }

  /** The rest of a chat turn, once a session is at hand: ask, then store
      the reply and send the answer, or re-enter the chat after an expired
      conversation. The waiting flag ends as it began; the session's history
      grows by this question, is cleared by a cookie switch, or stays. */
  method Converse(data: SrcDataModel.PluginData, config: SrcDataModel.PluginConfig, world: Effects.World, help: string,
                  event: Event, arg: string, user: SrcDataModel.UserData, depth: int, lastTime: int)
      returns (end: End)
    requires event.OneBot? && ValidDisplay(config) && arg != "" && depth < 3
    modifies data, world, data.userDataDict.Values, user
    decreases 3 - depth, 1
    ensures old(user.isWaiting) ==>
              end == Finished && world.sent == old(world.sent) + [Quote(event, Describe(IsWaiting))]
              && world.asked == old(world.asked) && user.history == old(user.history)
    ensures !old(user.isWaiting) && old(user.chatbot).None? && world.createFails ==>
              end == Raised(PyException) && world.sent == old(world.sent) + [Quote(event, "<无法创建Chatbot>")]
              && world.asked == old(world.asked) && user.history == old(user.history)
    ensures var reply := NextReply(old(world.replies));
            !old(user.isWaiting) && (old(user.chatbot).Some? || !world.createFails) && reply.None? ==>
              end == Raised(PyException) && world.asked == old(world.asked) + 1 && user.history == old(user.history)
    ensures var reply := NextReply(old(world.replies));
            !old(user.isWaiting) && (old(user.chatbot).Some? || !world.createFails) && reply.Some?
            && SrcDataModel.Classify(reply.value).Accepted? ==>
              user.history == old(user.history) + [SrcDataModel.Conversation(arg, SrcDataModel.Classify(reply.value).raw)]
              && world.asked == old(world.asked) + 1
              && (SrcOnebotUtils.DisplayList(user.history, config.displayContentTypes).Ok? ==> end == Returned)
    ensures user.isWaiting == old(user.isWaiting)
    ensures HistoryStep(old(user.history), user.history, arg)
    ensures world.asked <= old(world.asked) + (3 - depth)
    ensures old(world.sent) <= world.sent
    ensures data.userDataDict == old(data.userDataDict)
    ensures IndexGrows(old(data.replyMessageIdDict), data.replyMessageIdDict, KeyOf(event))
  {
    var response;
    response, end := AskBing(data, config, world, event, user);
    if response.None? {
      return;
    }
    end := Conclude(data, config, world, help, event, arg, user, response.value, depth, lastTime);
  }

  /** Storing the reply and acting on the outcome: send the answer, re-enter
      the chat one level deeper with the same session (then finish, unless
      it raised), finish with a message, or let the error escape. */
  method Conclude(data: SrcDataModel.PluginData, config: SrcDataModel.PluginConfig, world: Effects.World, help: string,
                  event: Event, arg: string, user: SrcDataModel.UserData, response: Json, depth: int, lastTime: int)
      returns (end: End)
    requires event.OneBot? && ValidDisplay(config) && arg != "" && depth < 3
    modifies data, world, data.userDataDict.Values, user
    decreases 3 - depth, 0
    ensures SrcDataModel.Classify(response).Accepted? ==>
              user.history == old(user.history) + [SrcDataModel.Conversation(arg, SrcDataModel.Classify(response).raw)]
              && world.asked == old(world.asked)
              && (SrcOnebotUtils.DisplayList(user.history, config.displayContentTypes).Ok? ==> end == Returned)
    ensures SrcDataModel.Classify(response).Rejected? ==> end != Returned
    ensures user.isWaiting == old(user.isWaiting)
    ensures HistoryStep(old(user.history), user.history, arg)
    ensures world.asked <= old(world.asked) + (2 - depth)
    ensures old(world.sent) <= world.sent
    ensures data.userDataDict == old(data.userDataDict)
    ensures IndexGrows(old(data.replyMessageIdDict), data.replyMessageIdDict, KeyOf(event))
  {
    var outcome, notices := SrcCommonUtils.StoreResponse(data, user, event, config, arg, response, world.gathered);
    SendQuoted(world, event, notices);
    ghost var noticed := world.sent;
    match outcome
    case Stored =>
      end := SendAnswer(data, config, world, event, user);
    case Refresh =>
      var inner := Chat(data, config, world, help, event, arg, user, depth + 1, lastTime);
      end := if inner.Raised? then inner else Finished;
    case Finish(final) =>
      if final.Plain? {
        var _ := world.Send([Text(final.text)]);
      } else if final.Quoted? {
        var _ := world.Send(Quote(event, final.text));
      }
      end := Finished;
    case Raise(e) =>
      end := Raised(e);
    Effects.SentGrows(old(world.sent), noticed, world.sent);
  }

  /** `bingchat_command_new_chat`: after the admission check, the sender's
      session is looked up or created and reset (with `clear` as intended),
      the reset is announced, and a non-empty argument is asked at once in a
      chat run of depth 1. */
  method NewChat(data: SrcDataModel.PluginData, config: SrcDataModel.PluginConfig, world: Effects.World, help: string,
                 event: Event, arg: string, lastTime: int) returns (end: End)
    requires event.OneBot? && ValidDisplay(config)
    modifies data, world, data.userDataDict.Values
    ensures var c := SrcOnebotCheck.CheckIfInList(SrcOnebotCheck.FilterOf(config), event.kind, event.subType, event.userId);
            c.Err? ==>
              data.userDataDict == old(data.userDataDict)
              && (IsPluginError(c.error) ==> end == Finished && world.sent == old(world.sent) + [Quote(event, Describe(c.error))])
              && (!IsPluginError(c.error) ==> end == Raised(c.error) && world.sent == old(world.sent))
    ensures var c := SrcOnebotCheck.CheckIfInList(SrcOnebotCheck.FilterOf(config), event.kind, event.subType, event.userId);
            c.Ok? && arg == "" ==>
              end == Returned && world.sent == old(world.sent) + [Quote(event, "已刷新对话")]
              && KeyOf(event) in data.userDataDict
              && data.userDataDict[KeyOf(event)].history == []
              && data.userDataDict[KeyOf(event)].chatbot == None
              && data.userDataDict[KeyOf(event)].sender == SrcCommonUtils.SenderOf(event.userId, event.nickname)
    ensures var c := SrcOnebotCheck.CheckIfInList(SrcOnebotCheck.FilterOf(config), event.kind, event.subType, event.userId);
            c.Ok? && arg != "" ==>
              |world.sent| > |old(world.sent)| && world.sent[|old(world.sent)|] == Quote(event, "已刷新对话")
              && KeyOf(event) in data.userDataDict
              && var u := data.userDataDict[KeyOf(event)];
                 u.history == [] || (|u.history| == 1 && u.history[0].ask == arg)
    ensures world.asked <= old(world.asked) + 2
    ensures DictGrows(old(data.userDataDict), data.userDataDict, KeyOf(event))
    ensures IndexGrows(old(data.replyMessageIdDict), data.replyMessageIdDict, KeyOf(event))
  {
    var admitted := SrcOnebotCheck.CheckIfInList(SrcOnebotCheck.FilterOf(config), event.kind, event.subType, event.userId);
    if admitted.Err? {
      if IsPluginError(admitted.error) {
        var _ := world.Send(Quote(event, Describe(admitted.error)));
        return Finished;
      }
      return Raised(admitted.error);
    }
    var user := SrcOnebotUtils.DefaultGetUserData(data, event.userId, event.nickname, lastTime);
    user.Clear(SrcCommonUtils.SenderOf(event.userId, event.nickname));
    var _ := world.Send(Quote(event, "已刷新对话"));
    if arg == "" {
      return Returned;
    }
    end := Chat(data, config, world, help, event, arg, null, 1, lastTime);
  }

  /** `bingchat_command_history_chat`: refused in guild channels and with an
      argument; after the admission check, the sender's history goes out as
      one forwarded bundle, or a notice says there is none. */
  method History(data: SrcDataModel.PluginData, config: SrcDataModel.PluginConfig, world: Effects.World,
                 event: Event, arg: string, selfId: int, lastTime: int) returns (end: End)
    requires event.OneBot?
    modifies data, world
    ensures event.kind.GuildChat? ==>
              end == Finished && world.sent == old(world.sent) + [[Text("频道不支持合并转发，无法使用该功能！")]]
              && data.userDataDict == old(data.userDataDict)
    ensures !event.kind.GuildChat? && arg != "" ==>
              end == Finished && world.sent == old(world.sent) + [Quote(event, "此命令没有参数，不要在命令后加别的内容")]
              && data.userDataDict == old(data.userDataDict)
    ensures var c := SrcOnebotCheck.CheckIfInList(SrcOnebotCheck.FilterOf(config), event.kind, event.subType, event.userId);
            !event.kind.GuildChat? && arg == "" && c.Err? ==>
              end == Finished && world.sent == old(world.sent) + [Quote(event, Describe(c.error))]
              && data.userDataDict == old(data.userDataDict)
    ensures var c := SrcOnebotCheck.CheckIfInList(SrcOnebotCheck.FilterOf(config), event.kind, event.subType, event.userId);
            !event.kind.GuildChat? && arg == "" && c.Ok? ==>
              KeyOf(event) in data.userDataDict
              && var u := data.userDataDict[KeyOf(event)];
                 (u.history == [] ==> end == Finished && world.sent == old(world.sent) + [Quote(event, "您没有历史对话")])
                 && (u.history != [] && SrcOnebotUtils.HistoryNodes(u.sender, selfId, u.history).Ok? ==>
                       end == Returned
                       && world.sent == old(world.sent) + [SrcOnebotUtils.HistoryNodes(u.sender, selfId, u.history).value])
                 && (u.history != [] && SrcOnebotUtils.HistoryNodes(u.sender, selfId, u.history).Err? ==>
                       end == Raised(SrcOnebotUtils.HistoryNodes(u.sender, selfId, u.history).error)
                       && world.sent == old(world.sent))
    ensures world.asked == old(world.asked)
    ensures DictGrows(old(data.userDataDict), data.userDataDict, KeyOf(event))
    ensures data.replyMessageIdDict == old(data.replyMessageIdDict)
  {
    if event.kind.GuildChat? {
      var _ := world.Send([Text("频道不支持合并转发，无法使用该功能！")]);
      return Finished;
    }
    if arg != "" {
      var _ := world.Send(Quote(event, "此命令没有参数，不要在命令后加别的内容"));
      return Finished;
    }
    var admitted := SrcOnebotCheck.CheckIfInList(SrcOnebotCheck.FilterOf(config), event.kind, event.subType, event.userId);
    if admitted.Err? {
      var _ := world.Send(Quote(event, Describe(admitted.error)));
      return Finished;
    }
    var user := SrcOnebotUtils.DefaultGetUserData(data, event.userId, event.nickname, lastTime);
    if user.history == [] {
      var _ := world.Send(Quote(event, "您没有历史对话"));
      return Finished;
    }
    var msg := SrcOnebotUtils.HistoryOut(selfId, user);
    if msg.Err? {
      return Raised(msg.error);
    }
    var _ := world.Send(msg.value);
    return Returned;
  }

  /** `bingchat_message_all`: a reply to one of the bot's answers continues
      the session that answer belongs to, in a chat run of depth 1. Without
      a quoted message it raises; an answer id missing from the reply index,
      or a session missing from the store, raises KeyError. */
  method MessageAll(data: SrcDataModel.PluginData, config: SrcDataModel.PluginConfig, world: Effects.World, help: string,
                    event: Event, arg: string, replyTo: Option<int>, lastTime: int) returns (end: End)
    requires event.OneBot? && ValidDisplay(config)
    modifies data, world, data.userDataDict.Values
    ensures replyTo.None? ==> end == Raised(PyException) && world.sent == old(world.sent)
    ensures replyTo.Some? && replyTo.value !in old(data.replyMessageIdDict) ==>
              end == Raised(PyKeyError(Decimal(replyTo.value))) && world.sent == old(world.sent)
    ensures replyTo.Some? && replyTo.value in old(data.replyMessageIdDict)
            && old(data.replyMessageIdDict)[replyTo.value] !in old(data.userDataDict) ==>
              end == Raised(PyKeyError("user_info")) && world.sent == old(world.sent)
    ensures replyTo.Some? && replyTo.value in old(data.replyMessageIdDict)
            && old(data.replyMessageIdDict)[replyTo.value] in old(data.userDataDict) ==>
              var owner := old(data.userDataDict)[old(data.replyMessageIdDict)[replyTo.value]];
              owner.isWaiting == old(owner.isWaiting) && HistoryStep(old(owner.history), owner.history, arg)
    ensures world.asked <= old(world.asked) + 2
    ensures data.userDataDict == old(data.userDataDict)
    ensures IndexGrows(old(data.replyMessageIdDict), data.replyMessageIdDict, KeyOf(event))
  {
    if replyTo.None? {
      return Raised(PyException);
    }
    var id := replyTo.value;
    if id !in data.replyMessageIdDict {
      return Raised(PyKeyError(Decimal(id)));
    }
    var key := data.replyMessageIdDict[id];
    if key !in data.userDataDict {
      return Raised(PyKeyError("user_info"));
    }
    end := Chat(data, config, world, help, event, arg, data.userDataDict[key], 1, lastTime);
  }
}
