/** The Telegram command handlers of the current package
    (src/plugins/.../telegram/main.py): chat and new chat. They follow the
    OneBot handlers without the admission check, the cookie-switch gate or
    the deletion of the "asking" notice; replies quote nothing, and answers
    are indexed under the `telegram` platform. */
module TelegramMain {
  import opened Json
  import opened Errors
  import opened Messages
  import SrcDataModel
  import SrcCommonUtils
  import SrcOnebotCheck
  import SrcOnebotMain
  import TelegramUtils
  import Effects

  type End = SrcOnebotMain.End

  /** `reply_out(event, text)`: the text alone. */
  function Quote(text: string): Message
  {
    TelegramUtils.ReplyOut([Text(text)])
  }

  /** The session key of the event's sender. */
  function KeyOf(event: Event): SrcDataModel.UserInfo
    requires event.Telegram?
  {
    SrcDataModel.UserInfo("telegram", event.fromId)
  }

  /** `matcher.send(reply_out(event, text))` for each text, in order. */
  method SendQuoted(world: Effects.World, texts: seq<string>)
    modifies world
    ensures world.sent == old(world.sent) + seq(|texts|, i requires 0 <= i < |texts| => Quote(texts[i]))
    ensures world.deleted == old(world.deleted) && world.replies == old(world.replies) && world.asked == old(world.asked)
  {
    var i := 0;
    while i < |texts|
      invariant 0 <= i <= |texts|
      invariant world.sent == old(world.sent) + seq(i, j requires 0 <= j < i => Quote(texts[j]))
      invariant world.deleted == old(world.deleted) && world.replies == old(world.replies) && world.asked == old(world.asked)
    {
      var _ := world.Send(Quote(texts[i]));
      i := i + 1;
    }
  }

  /** Sending the answer messages one by one, the first through
      `reply_out`, and recording each as an answer to the sender. */
  method SendDirect(data: SrcDataModel.PluginData, world: Effects.World, event: Event, msgs: seq<Message>)
    requires event.Telegram?
    modifies data, world
    ensures world.sent == old(world.sent) + msgs
    ensures world.nextMessageId == old(world.nextMessageId) + |msgs|
    ensures SrcOnebotMain.Recorded(old(data.replyMessageIdDict), data.replyMessageIdDict,
                                   old(world.nextMessageId), world.nextMessageId, KeyOf(event))
    ensures SrcOnebotMain.SendFrame(data, world)
  {
    var key := KeyOf(event);
    ghost var lo := world.nextMessageId;
    var i := 0;
    while i < |msgs|
      invariant 0 <= i <= |msgs|
      invariant world.sent == old(world.sent) + msgs[..i]
      invariant world.nextMessageId == lo + i
      invariant SrcOnebotMain.Recorded(old(data.replyMessageIdDict), data.replyMessageIdDict, lo, lo + i, key)
      invariant SrcOnebotMain.SendFrame(data, world)
    {
      var out := if i == 0 then TelegramUtils.ReplyOut(msgs[i]) else msgs[i];
      assert msgs[..i + 1] == msgs[..i] + [out];
      var id := world.Send(out);
      data.replyMessageIdDict := data.replyMessageIdDict[id := key];
      i := i + 1;
    }
    assert msgs[..i] == msgs;
  }

  /** Sending the answer: forwarding raises NotImplementedError; otherwise
      one message per display entry (the first through `reply_out`, which
      changes nothing here), each recorded as an answer to the sender. An
      accessor error is reported; any other error, an image entry's
      NotImplementedError among them, escapes. */
  method SendAnswer(data: SrcDataModel.PluginData, config: SrcDataModel.PluginConfig, world: Effects.World,
                    event: Event, user: SrcDataModel.UserData) returns (end: End)
    requires event.Telegram? && SrcOnebotMain.ValidDisplay(config)
    modifies data, world
    ensures config.displayInForward ==>
              end == SrcOnebotMain.Raised(NotImplemented) && world.sent == old(world.sent)
              && data.replyMessageIdDict == old(data.replyMessageIdDict)
    ensures var r := TelegramUtils.DisplayList(user.history, config.displayContentTypes);
            !config.displayInForward && r.Err? ==>
              data.replyMessageIdDict == old(data.replyMessageIdDict)
              && (IsResponseError(r.error) ==>
                    end == SrcOnebotMain.Finished && world.sent == old(world.sent) + [Quote("<调用content_simple时出错>")])
              && (!IsResponseError(r.error) ==> end == SrcOnebotMain.Raised(r.error) && world.sent == old(world.sent))
    ensures var r := TelegramUtils.DisplayList(user.history, config.displayContentTypes);
            !config.displayInForward && r.Ok? ==>
              end == SrcOnebotMain.Returned && world.sent == old(world.sent) + r.value
              && SrcOnebotMain.Recorded(old(data.replyMessageIdDict), data.replyMessageIdDict,
                                        old(world.nextMessageId), world.nextMessageId, KeyOf(event))
    ensures SrcOnebotMain.IndexGrows(old(data.replyMessageIdDict), data.replyMessageIdDict, KeyOf(event))
    ensures SrcOnebotMain.SendFrame(data, world)
  {
    if config.displayInForward {
      return SrcOnebotMain.Raised(NotImplemented);
    }
    var msgList := TelegramUtils.GetDisplayMessageList(user, config.displayContentTypes);
    if msgList.Err? {
      if IsResponseError(msgList.error) {
        var _ := world.Send(Quote("<调用content_simple时出错>"));
        return SrcOnebotMain.Finished;
      }
      return SrcOnebotMain.Raised(msgList.error);
    }
    SendDirect(data, world, event, msgList.value);
    return SrcOnebotMain.Returned;
  }

  /** `bingchat_command_chat`: the depth cap and the help text as on
      OneBot, then straight to the session: there is no admission check and
      no cookie-switch gate. */
  method Chat(data: SrcDataModel.PluginData, config: SrcDataModel.PluginConfig, world: Effects.World, help: string,
              event: Event, arg: string, userData: SrcDataModel.UserData?, depth: int, lastTime: int)
      returns (end: End)
    requires event.Telegram? && SrcOnebotMain.ValidDisplay(config)
    modifies data, world, data.userDataDict.Values, userData
    decreases if depth < 3 then 3 - depth else 0, 2
    ensures depth >= 3 ==> end == SrcOnebotMain.Returned && world.sent == old(world.sent) && data.userDataDict == old(data.userDataDict)
    ensures depth < 3 && arg == "" ==>
              end == SrcOnebotMain.Finished && world.sent == old(world.sent) + [[Text(help)]]
              && data.userDataDict == old(data.userDataDict)
    ensures depth < 3 && arg != "" && userData == null ==> KeyOf(event) in data.userDataDict
    ensures world.deleted == old(world.deleted)
    ensures world.asked <= old(world.asked) + (if depth < 3 then 3 - depth else 0)
    ensures old(world.sent) <= world.sent
    ensures userData != null ==> data.userDataDict == old(data.userDataDict)
    ensures userData != null ==>
              userData.isWaiting == old(userData.isWaiting)
              && SrcOnebotMain.HistoryStep(old(userData.history), userData.history, arg)
    ensures userData == null && KeyOf(event) in old(data.userDataDict) ==>
              SrcOnebotMain.HistoryStep(old(data.userDataDict[KeyOf(event)].history), data.userDataDict[KeyOf(event)].history, arg)
    ensures SrcOnebotMain.DictGrows(old(data.userDataDict), data.userDataDict, KeyOf(event))
    ensures SrcOnebotMain.IndexGrows(old(data.replyMessageIdDict), data.replyMessageIdDict, KeyOf(event))
  {
    if depth >= 3 {
      return SrcOnebotMain.Returned;
    }
    if arg == "" {
      var _ := world.Send([Text(help)]);
      return SrcOnebotMain.Finished;
    }
    var user := userData;
    if user == null {
      user := TelegramUtils.DefaultGetUserData(data, event.fromId, event.username, lastTime);
    }
    end := Converse(data, config, world, help, event, arg, user, depth, lastTime);
  }

  /** The asking part of a chat turn, as on OneBot but with nothing to
      delete afterwards. */
  method AskBing(data: SrcDataModel.PluginData, config: SrcDataModel.PluginConfig, world: Effects.World,
                 user: SrcDataModel.UserData) returns (response: Option<Json>, end: End)
    modifies world, user
    ensures old(user.isWaiting) ==>
              response == None && end == SrcOnebotMain.Finished && world.sent == old(world.sent) + [Quote(Describe(IsWaiting))]
              && world.asked == old(world.asked)
    ensures !old(user.isWaiting) && old(user.chatbot).None? && world.createFails ==>
              response == None && end == SrcOnebotMain.Raised(PyException)
              && world.sent == old(world.sent) + [Quote("<无法创建Chatbot>")] && world.asked == old(world.asked)
    ensures !old(user.isWaiting) && (old(user.chatbot).Some? || !world.createFails) ==>
              world.asked == old(world.asked) + 1
              && response == SrcOnebotMain.NextReply(old(world.replies))
              && (response.None? ==> end == SrcOnebotMain.Raised(PyException))
    ensures world.asked <= old(world.asked) + 1
    ensures old(world.sent) <= world.sent
    ensures world.deleted == old(world.deleted)
    ensures user.isWaiting == old(user.isWaiting) && user.history == old(user.history) && user.sender == old(user.sender)
  {
    var waiting := SrcOnebotCheck.CheckIfUserIsWaiting(user);
    if waiting.Err? {
      var _ := world.Send(Quote(Describe(waiting.error)));
      return None, SrcOnebotMain.Finished;
    }
    var chatbot, notices := SrcCommonUtils.GetChatbot(data, user, world.createFails);
    SendQuoted(world, notices);
    if chatbot.Err? {
      return None, SrcOnebotMain.Raised(chatbot.error);
    }
    if config.displayIsWaiting {
      var _ := world.Send(Quote("正在请求"));
    }
    var reply := world.Ask();
    ghost var waitingDuringAsk;
    var r;
    r, notices, waitingDuringAsk := SrcCommonUtils.GetBingResponse(user, reply);
    SendQuoted(world, notices);
    if r.Err? {
      return None, SrcOnebotMain.Raised(r.error);
    }
    return Some(r.value), SrcOnebotMain.Returned;
  }

  /** The rest of a chat turn once a session is at hand. */
  method Converse(data: SrcDataModel.PluginData, config: SrcDataModel.PluginConfig, world: Effects.World, help: string,
                  event: Event, arg: string, user: SrcDataModel.UserData, depth: int, lastTime: int)
      returns (end: End)
    requires event.Telegram? && SrcOnebotMain.ValidDisplay(config) && arg != "" && depth < 3
    modifies data, world, data.userDataDict.Values, user
    decreases 3 - depth, 1
    ensures old(user.isWaiting) ==>
              end == SrcOnebotMain.Finished && world.sent == old(world.sent) + [Quote(Describe(IsWaiting))]
              && world.asked == old(world.asked) && user.history == old(user.history)
    ensures var reply := SrcOnebotMain.NextReply(old(world.replies));
            !old(user.isWaiting) && (old(user.chatbot).Some? || !world.createFails) && reply.Some?
            && SrcDataModel.Classify(reply.value).Accepted? ==>
              user.history == old(user.history) + [SrcDataModel.Conversation(arg, SrcDataModel.Classify(reply.value).raw)]
              && world.asked == old(world.asked) + 1
    ensures world.deleted == old(world.deleted)
    ensures user.isWaiting == old(user.isWaiting)
    ensures SrcOnebotMain.HistoryStep(old(user.history), user.history, arg)
    ensures world.asked <= old(world.asked) + (3 - depth)
    ensures old(world.sent) <= world.sent
    ensures data.userDataDict == old(data.userDataDict)
    ensures SrcOnebotMain.IndexGrows(old(data.replyMessageIdDict), data.replyMessageIdDict, KeyOf(event))
  {
    var response;
    response, end := AskBing(data, config, world, user);
    if response.None? {
      return;
    }
    end := Conclude(data, config, world, help, event, arg, user, response.value, depth, lastTime);
  }

  /** Storing the reply and acting on the outcome. The cookie switch does
      not reset the stored sessions for a Telegram event. */
  method Conclude(data: SrcDataModel.PluginData, config: SrcDataModel.PluginConfig, world: Effects.World, help: string,
                  event: Event, arg: string, user: SrcDataModel.UserData, response: Json, depth: int, lastTime: int)
      returns (end: End)
    requires event.Telegram? && SrcOnebotMain.ValidDisplay(config) && arg != "" && depth < 3
    modifies data, world, data.userDataDict.Values, user
    decreases 3 - depth, 0
    ensures SrcDataModel.Classify(response).Accepted? ==>
              user.history == old(user.history) + [SrcDataModel.Conversation(arg, SrcDataModel.Classify(response).raw)]
              && world.asked == old(world.asked)
    ensures SrcDataModel.Classify(response).Rejected? ==> end != SrcOnebotMain.Returned
    ensures world.deleted == old(world.deleted)
    ensures user.isWaiting == old(user.isWaiting)
    ensures SrcOnebotMain.HistoryStep(old(user.history), user.history, arg)
    ensures world.asked <= old(world.asked) + (2 - depth)
    ensures old(world.sent) <= world.sent
    ensures data.userDataDict == old(data.userDataDict)
    ensures SrcOnebotMain.IndexGrows(old(data.replyMessageIdDict), data.replyMessageIdDict, KeyOf(event))
  {
    var outcome, notices := SrcCommonUtils.StoreResponse(data, user, event, config, arg, response, world.gathered);
    SendQuoted(world, notices);
    match outcome
    case Stored =>
      end := SendAnswer(data, config, world, event, user);
    case Refresh =>
      var inner := Chat(data, config, world, help, event, arg, user, depth + 1, lastTime);
      end := if inner.Raised? then inner else SrcOnebotMain.Finished;
    case Finish(final) =>
      if final.Plain? {
        var _ := world.Send([Text(final.text)]);
      } else if final.Quoted? {
        var _ := world.Send(Quote(final.text));
      }
      end := SrcOnebotMain.Finished;
    case Raise(e) =>
      end := SrcOnebotMain.Raised(e);
  }

  /** `bingchat_command_new_chat`: no admission check; the sender's session
      is looked up or created and reset, the reset announced, and a
      non-empty argument asked at once. */
  method NewChat(data: SrcDataModel.PluginData, config: SrcDataModel.PluginConfig, world: Effects.World, help: string,
                 event: Event, arg: string, lastTime: int) returns (end: End)
    requires event.Telegram? && SrcOnebotMain.ValidDisplay(config)
    modifies data, world, data.userDataDict.Values
    ensures arg == "" ==>
              end == SrcOnebotMain.Returned && world.sent == old(world.sent) + [Quote("已刷新对话")]
              && KeyOf(event) in data.userDataDict
              && data.userDataDict[KeyOf(event)].history == []
              && data.userDataDict[KeyOf(event)].chatbot == None
              && data.userDataDict[KeyOf(event)].sender == SrcCommonUtils.SenderOf(event.fromId, event.username)
    ensures arg != "" ==>
              |world.sent| > |old(world.sent)| && world.sent[|old(world.sent)|] == Quote("已刷新对话")
              && KeyOf(event) in data.userDataDict
              && var u := data.userDataDict[KeyOf(event)];
                 u.history == [] || (|u.history| == 1 && u.history[0].ask == arg)
    ensures world.asked <= old(world.asked) + 2
    ensures SrcOnebotMain.DictGrows(old(data.userDataDict), data.userDataDict, KeyOf(event))
    ensures SrcOnebotMain.IndexGrows(old(data.replyMessageIdDict), data.replyMessageIdDict, KeyOf(event))
  {
    var user := TelegramUtils.DefaultGetUserData(data, event.fromId, event.username, lastTime);
    user.Clear(SrcCommonUtils.SenderOf(event.fromId, event.username));
    var _ := world.Send(Quote("已刷新对话"));
    if arg == "" {
      return SrcOnebotMain.Returned;
    }
    end := Chat(data, config, world, help, event, arg, null, 1, lastTime);
  }
}
