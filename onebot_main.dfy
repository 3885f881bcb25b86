/** The command handlers of the older OneBot v11 package
    (nonebot_plugin_bing_chat/onebotv11/main.py): chat, new chat and
    history over a module-level store of sessions keyed by user id. The
    file calls helpers under names its imports do not provide; each is
    modelled by the helper of the same package it evidently means. */
module OnebotMain {
  import opened Json
  import opened Errors
  import opened Messages
  import DataModel
  import LegacyDataModel
  import LegacyUtils
  import SrcDataModel
  import SrcOnebotCheck
  import SrcOnebotUtils
  import SrcOnebotMain
  import OnebotCheck
  import Effects

  type End = SrcOnebotMain.End

  /** The cookie file every new client is created from. */
  const CookiePath := "./data/BingChat/cookies.json"

  /** `user_data_dict`: the sessions, keyed by the sender's user id. */
  class Sessions {
    var userDataDict: map<int, DataModel.UserData>

    constructor ()
      ensures userDataDict == map[]
    {
      userDataDict := map[];
    }
  }

  /** `replyOut(message_id, text)`: the text quoting the event's message. */
  function Quote(event: Event, text: string): (m: Message)
    requires event.OneBot?
    ensures |m| == 2 && m[0] == ReplyTo(event.messageId)
    ensures !event.kind.GuildChat? ==> m == SrcOnebotUtils.ReplyOut(event.kind, event.messageId, [Text(text)])
  {
    [ReplyTo(event.messageId), Text(text)]
  }

  /** The sender as the event carries it. */
  function SenderOf(event: Event): DataModel.Sender
    requires event.OneBot?
  {
    DataModel.Sender(event.userId, event.nickname)
  }

  /** The store only gains a fresh session under `key`, if any. */
  twostate predicate StoreGrows(store: Sessions, key: int)
    reads store
  {
    (forall k :: k in old(store.userDataDict) ==> k in store.userDataDict && store.userDataDict[k] == old(store.userDataDict[k]))
    && forall k :: k in store.userDataDict ==> k in old(store.userDataDict) || (k == key && fresh(store.userDataDict[k]))
  }

  /** `getUserDataSafe`: the sender's session, created when there is none. */
  method GetUserDataSafe(store: Sessions, event: Event, lastTime: int) returns (u: DataModel.UserData)
    requires event.OneBot?
    modifies store
    ensures event.userId in store.userDataDict && store.userDataDict[event.userId] == u
    ensures event.userId in old(store.userDataDict) ==>
              u == old(store.userDataDict)[event.userId] && store.userDataDict == old(store.userDataDict)
    ensures event.userId !in old(store.userDataDict) ==>
              store.userDataDict == old(store.userDataDict)[event.userId := u]
              && u.sender == SenderOf(event) && u.history == [] && !u.isWaiting && u.chatbot.None?
              && u.conversationCount == 0
    ensures StoreGrows(store, event.userId)
  {
    if event.userId in store.userDataDict {
      return store.userDataDict[event.userId];
    }
    u := new DataModel.UserData(SenderOf(event), lastTime);
    store.userDataDict := store.userDataDict[event.userId := u];
  }

  /** The backend's answer to the next question. */
  function NextReply(replies: seq<Option<Json>>): Option<Json>
  {
    if replies == [] then None else replies[0]
  }

  /** The history of the sender's session when a run begins: empty when
      there is no session yet. */
  function HistoryBefore(dict: map<int, DataModel.UserData>, key: int): seq<DataModel.Conversation>
    reads set k | k in dict :: dict[k]
  {
    if key in dict then dict[key].history else []
  }

  /** A session's history after a chat run that asked `question`: as it was,
      grown by one turn, or cleared by an automatic refresh and then left
      empty or given that one turn. */
  predicate HistoryStep(before: seq<DataModel.Conversation>, after: seq<DataModel.Conversation>, question: string)
  {
    after == before || after == []
    || (|after| == |before| + 1 && after[..|before|] == before && after[|before|].ask == question)
    || (|after| == 1 && after[0].ask == question)
  }

  /** The asking part of a chat turn: the waiting check, the client, the
      "asking" notice and the question. The notice is sent and, whatever the
      question gives, deleted again; the waiting flag ends as it began. */
  method AskBing(world: Effects.World, event: Event, user: DataModel.UserData, arg: string)
      returns (response: Option<Json>, end: End)
    requires event.OneBot?
    modifies world, user
    ensures old(user.isWaiting) ==>
              response == None && end == SrcOnebotMain.Finished
              && world.sent == old(world.sent) + [Quote(event, Describe(IsWaiting))]
              && world.asked == old(world.asked) && world.deleted == old(world.deleted)
    ensures !old(user.isWaiting) && old(user.chatbot).None? && world.createFails ==>
              response == None && end == SrcOnebotMain.Raised(PyException)
              && world.sent == old(world.sent) + [Quote(event, "<无法创建Chatbot>")]
              && world.asked == old(world.asked) && world.deleted == old(world.deleted)
    ensures !old(user.isWaiting) && (old(user.chatbot).Some? || !world.createFails) ==>
              user.chatbot == (if old(user.chatbot).Some? then old(user.chatbot) else Some(SrcDataModel.Chatbot(CookiePath)))
              && world.asked == old(world.asked) + 1 && response == NextReply(old(world.replies))
              && world.deleted == old(world.deleted) + [old(world.nextMessageId)]
              && (response.Some? ==> world.sent == old(world.sent) + [Quote(event, "正在请求")]
                                     && |world.replies| < |old(world.replies)|)
              && (response.None? ==>
                    end == SrcOnebotMain.Raised(PyException)
                    && world.sent == old(world.sent) + [Quote(event, "正在请求"), Quote(event, "<无法询问，如果出现多次请试刷新>")])
    ensures old(user.isWaiting) || (old(user.chatbot).None? && world.createFails) ==> user.chatbot == old(user.chatbot)
    ensures |world.replies| <= |old(world.replies)|
    ensures user.isWaiting == old(user.isWaiting) && user.history == old(user.history)
    ensures user.sender == old(user.sender) && user.conversationCount == old(user.conversationCount)
  {
    var waiting := OnebotCheck.CheckIfUserIsWaiting(event, user.isWaiting);
    if waiting.Err? {
      var _ := world.Send(Quote(event, Describe(waiting.error)));
      return None, SrcOnebotMain.Finished;
    }
    if user.chatbot.None? {
      if world.createFails {
        var _ := world.Send(Quote(event, "<无法创建Chatbot>"));
        return None, SrcOnebotMain.Raised(PyException);
      }
      user.chatbot := Some(SrcDataModel.Chatbot(CookiePath));
    }
    var askingId := world.Send(Quote(event, "正在请求"));
    user.isWaiting := true;
    response := world.Ask();
    if response.None? {
      var _ := world.Send(Quote(event, "<无法询问，如果出现多次请试刷新>"));
      end := SrcOnebotMain.Raised(PyException);
    } else {
      end := SrcOnebotMain.Returned;
    }
    user.isWaiting := false;
    world.Delete(askingId);
  }

  /** Sending the stored answer's simple content, quoting the event; a
      response exception from the accessor is reported, any other escapes. */
  method SendAnswer(world: Effects.World, event: Event, raw: Json) returns (end: End)
    requires event.OneBot?
    modifies world
    ensures var c := LegacyDataModel.ContentSimple(raw);
            (c.Ok? ==> end == SrcOnebotMain.Returned && world.sent == old(world.sent) + [Quote(event, c.value)])
            && (c.Err? && IsResponseError(c.error) ==>
                  end == SrcOnebotMain.Finished && world.sent == old(world.sent) + [Quote(event, "<调用content_simple时出错>")])
            && (c.Err? && !IsResponseError(c.error) ==> end == SrcOnebotMain.Raised(c.error) && world.sent == old(world.sent))
    ensures world.deleted == old(world.deleted) && world.replies == old(world.replies) && world.asked == old(world.asked)
  {
    var content := LegacyDataModel.ContentSimple(raw);
    if content.Ok? {
      var _ := world.Send(Quote(event, content.value));
      return SrcOnebotMain.Returned;
    }
    if IsResponseError(content.error) {
      var _ := world.Send(Quote(event, "<调用content_simple时出错>"));
      return SrcOnebotMain.Finished;
    }
    return SrcOnebotMain.Raised(content.error);
  }

  /** The message a refused reply is reported with, or `None` when the
      refusal escapes; a conversation limit under automatic refresh is not
      reported but acted on. */
  function RefusalNotice(e: Exc, autoRefresh: bool): (n: Option<string>)
    ensures n.Some? ==> IsPluginError(e)
    ensures e.AccountReachLimit? ==> n == Some("<请尝联系管理员>")
    ensures e.ConversationReachLimit? ==> n == Some(if autoRefresh then "检测到达到对话上限，将自动刷新对话" else "<请尝试刷新>")
    ensures !IsPluginError(e) ==> n.None?
  {
    if e.AccountReachLimit? then Some("<请尝联系管理员>")
    else if e.ConversationReachLimit? then Some(if autoRefresh then "检测到达到对话上限，将自动刷新对话" else "<请尝试刷新>")
    else if IsPluginError(e) then Some("<处理响应值值时出错>")
    else None
  }

  /** `bing_chat_command_chat`. `lastTime` is the `last_time` a new session
      gets. An empty argument gets the help text and the admission check can
      end the run; past them the sender's session is looked up or created.
      The run ends with the sender's waiting flag as it began, and the
      session's history grown by this question, cleared by an automatic
      refresh, or as it was. It terminates because every question that gets
      an answer uses up one of the backend's replies. */
  method Chat(store: Sessions, f: SrcOnebotCheck.Filter, autoRefresh: bool, world: Effects.World,
              event: Event, arg: string, lastTime: int) returns (end: End)
    requires event.OneBot?
    modifies store, world, store.userDataDict.Values
    decreases |world.replies|, 0
    ensures arg == "" ==>
              end == SrcOnebotMain.Finished && world.sent == old(world.sent) + [[Text(LegacyUtils.HelpMessage())]]
              && store.userDataDict == old(store.userDataDict)
    ensures var c := OnebotCheck.CheckIfInList(f, event.kind, event.subType, event.userId);
            arg != "" && c.Err? ==>
              end == SrcOnebotMain.Finished && world.sent == old(world.sent) + [Quote(event, Describe(c.error))]
              && store.userDataDict == old(store.userDataDict)
    ensures var c := OnebotCheck.CheckIfInList(f, event.kind, event.subType, event.userId);
            arg != "" && c.Ok? ==> event.userId in store.userDataDict
    ensures event.userId in store.userDataDict ==>
              store.userDataDict[event.userId].isWaiting
                == (event.userId in old(store.userDataDict) && old(store.userDataDict[event.userId].isWaiting))
              && HistoryStep(old(HistoryBefore(store.userDataDict, event.userId)), store.userDataDict[event.userId].history, arg)
    ensures old(world.sent) <= world.sent
    ensures |world.replies| <= |old(world.replies)|
    ensures StoreGrows(store, event.userId)
    ensures event.userId in old(store.userDataDict) ==> store.userDataDict == old(store.userDataDict)
  {
    if arg == "" {
      var _ := world.Send([Text(LegacyUtils.HelpMessage())]);
      return SrcOnebotMain.Finished;
    }
    var admitted := OnebotCheck.CheckIfInList(f, event.kind, event.subType, event.userId);
    if admitted.Err? {
      var _ := world.Send(Quote(event, Describe(admitted.error)));
      return SrcOnebotMain.Finished;
    }
    var user := GetUserDataSafe(store, event, lastTime);
    var response;
    response, end := AskBing(world, event, user, arg);
    if response.None? {
      return;
    }
    end := Conclude(store, f, autoRefresh, world, event, arg, user, response.value, lastTime);
  }

  /** Storing the reply and acting on the outcome: an accepted reply joins
      the history and its content is sent; a refusal is dealt with by
      `Refuse`. */
  method Conclude(store: Sessions, f: SrcOnebotCheck.Filter, autoRefresh: bool, world: Effects.World,
                  event: Event, arg: string, user: DataModel.UserData, response: Json, lastTime: int)
      returns (end: End)
    requires event.OneBot? && arg != ""
    requires OnebotCheck.CheckIfInList(f, event.kind, event.subType, event.userId).Ok?
    requires event.userId in store.userDataDict && store.userDataDict[event.userId] == user
    modifies store, world, store.userDataDict.Values
    decreases |world.replies|, 3
    ensures var v := LegacyDataModel.Classify(response);
            v.Accepted? ==>
              user.history == old(user.history) + [DataModel.Conversation(arg, v.raw)]
              && world.asked == old(world.asked)
              && (LegacyDataModel.ContentSimple(v.raw).Ok? ==> end == SrcOnebotMain.Returned)
    ensures var v := LegacyDataModel.Classify(response);
            v.Rejected? ==>
              end != SrcOnebotMain.Returned
              && (!(autoRefresh && v.error.ConversationReachLimit?) ==> user.history == old(user.history))
              && (autoRefresh && v.error.ConversationReachLimit? ==>
                    user.history == [] || (|user.history| == 1 && user.history[0].ask == arg))
    ensures user.isWaiting == old(user.isWaiting)
    ensures store.userDataDict == old(store.userDataDict)
    ensures old(world.sent) <= world.sent
    ensures |world.replies| <= |old(world.replies)|
  {
    var verdict := LegacyDataModel.Classify(response);
    if verdict.Accepted? {
      user.history := user.history + [DataModel.Conversation(arg, verdict.raw)];
      end := SendAnswer(world, event, user.history[|user.history| - 1].reply);
      return;
    }
    end := Refuse(store, f, autoRefresh, world, event, arg, user, verdict.error, lastTime);
  }

  /** The `except` clauses of storing a reply: a conversation limit under
      automatic refresh is announced and followed by a new-chat run with the
      same argument, which finishes the run unless it raised; any other
      refusal of the plugin's own is reported, and the rest escape. */
  method Refuse(store: Sessions, f: SrcOnebotCheck.Filter, autoRefresh: bool, world: Effects.World,
                event: Event, arg: string, user: DataModel.UserData, e: Exc, lastTime: int)
      returns (end: End)
    requires event.OneBot? && arg != ""
    requires OnebotCheck.CheckIfInList(f, event.kind, event.subType, event.userId).Ok?
    requires event.userId in store.userDataDict && store.userDataDict[event.userId] == user
    modifies store, world, store.userDataDict.Values
    decreases |world.replies|, 2
    ensures !(autoRefresh && e.ConversationReachLimit?) ==>
              user.history == old(user.history) && world.asked == old(world.asked)
              && (RefusalNotice(e, autoRefresh).Some? ==>
                    end == SrcOnebotMain.Finished
                    && world.sent == old(world.sent) + [Quote(event, RefusalNotice(e, autoRefresh).value)])
              && (RefusalNotice(e, autoRefresh).None? ==> end == SrcOnebotMain.Raised(e) && world.sent == old(world.sent))
    ensures autoRefresh && e.ConversationReachLimit? ==>
              end != SrcOnebotMain.Returned && (user.history == [] || (|user.history| == 1 && user.history[0].ask == arg))
              && old(world.sent) + [Quote(event, "检测到达到对话上限，将自动刷新对话")] <= world.sent
    ensures user.isWaiting == old(user.isWaiting)
    ensures store.userDataDict == old(store.userDataDict)
    ensures old(world.sent) <= world.sent
    ensures |world.replies| <= |old(world.replies)|
  {
    var notice := RefusalNotice(e, autoRefresh);
    if notice.None? {
      return SrcOnebotMain.Raised(e);
    }
    var _ := world.Send(Quote(event, notice.value));
    if autoRefresh && e.ConversationReachLimit? {
      var inner := NewChat(store, f, autoRefresh, world, event, arg, lastTime);
      end := if inner.Raised? then inner else SrcOnebotMain.Finished;
      return;
    }
    end := SrcOnebotMain.Finished;
  }

  /** `bing_chat_command_new_chat`: after the admission check the sender's
      session is looked up or created and reset to a fresh conversation, the
      reset is announced, and a non-empty argument is asked at once. */
  method NewChat(store: Sessions, f: SrcOnebotCheck.Filter, autoRefresh: bool, world: Effects.World,
                 event: Event, arg: string, lastTime: int) returns (end: End)
    requires event.OneBot?
    modifies store, world, store.userDataDict.Values
    decreases |world.replies|, 1
    ensures var c := OnebotCheck.CheckIfInList(f, event.kind, event.subType, event.userId);
            c.Err? ==>
              end == SrcOnebotMain.Finished && world.sent == old(world.sent) + [Quote(event, Describe(c.error))]
              && store.userDataDict == old(store.userDataDict)
    ensures var c := OnebotCheck.CheckIfInList(f, event.kind, event.subType, event.userId);
            c.Ok? ==>
              event.userId in store.userDataDict
              && old(world.sent) + [Quote(event, "已刷新对话")] <= world.sent
              && var u := store.userDataDict[event.userId];
                 u.isWaiting == (event.userId in old(store.userDataDict) && old(store.userDataDict[event.userId].isWaiting))
                 && (u.history == [] || (|u.history| == 1 && u.history[0].ask == arg))
    ensures var c := OnebotCheck.CheckIfInList(f, event.kind, event.subType, event.userId);
            c.Ok? && arg == "" ==>
              end == SrcOnebotMain.Returned && world.sent == old(world.sent) + [Quote(event, "已刷新对话")]
              && var u := store.userDataDict[event.userId];
                 u.sender == SenderOf(event) && u.chatbot.None? && u.conversationCount == 0 && u.history == []
    ensures old(world.sent) <= world.sent
    ensures |world.replies| <= |old(world.replies)|
    ensures StoreGrows(store, event.userId)
    ensures event.userId in old(store.userDataDict) ==> store.userDataDict == old(store.userDataDict)
  {
    var admitted := OnebotCheck.CheckIfInList(f, event.kind, event.subType, event.userId);
    if admitted.Err? {
      var _ := world.Send(Quote(event, Describe(admitted.error)));
      return SrcOnebotMain.Finished;
    }
    var user := GetUserDataSafe(store, event, lastTime);
    user.sender := SenderOf(event);
    user.chatbot := None;
    user.conversationCount := 0;
    user.history := [];
    var _ := world.Send(Quote(event, "已刷新对话"));
    if arg == "" {
      return SrcOnebotMain.Returned;
    }
    end := Chat(store, f, autoRefresh, world, event, arg, lastTime);
  }

  // ------------------------------------------------------------------
  // History
  // ------------------------------------------------------------------

  /** A stored turn in the shape the current history builder reads. */
  function AsCurrent(h: seq<DataModel.Conversation>): (r: seq<SrcDataModel.Conversation>)
    ensures |r| == |h| && forall i :: 0 <= i < |h| ==> r[i] == SrcDataModel.Conversation(h[i].ask, h[i].reply)
  {
    seq(|h|, i requires 0 <= i < |h| => SrcDataModel.Conversation(h[i].ask, h[i].reply))
  }

  /** `historyOut`: the forwarded bundle of a session's history. */
  function HistoryBundle(sender: DataModel.Sender, selfId: int, h: seq<DataModel.Conversation>): Result<Message>
  {
    SrcOnebotUtils.HistoryNodes(SrcDataModel.Sender(sender.userId, sender.nickname), selfId, AsCurrent(h))
  }

  /** Each turn becomes the user's question in the user's name, then the
      answer in Bing's name; the bundle exists exactly when every stored
      answer can be read. */
  lemma HistoryBundleShape(sender: DataModel.Sender, selfId: int, h: seq<DataModel.Conversation>)
    ensures HistoryBundle(sender, selfId, h).Ok? <==>
              forall i :: 0 <= i < |h| ==> SrcDataModel.ContentAnswer(h[i].reply).Ok?
    ensures HistoryBundle(sender, selfId, h).Ok? ==>
              var m := HistoryBundle(sender, selfId, h).value;
              |m| == 2 * |h|
              && forall i :: 0 <= i < |h| ==>
                   m[2 * i] == Node(sender.userId, sender.nickname, [Text(h[i].ask)])
                   && m[2 * i + 1] == Node(selfId, "Bing", [Text(SrcDataModel.ContentAnswer(h[i].reply).value)])
  {
    var s := SrcDataModel.Sender(sender.userId, sender.nickname);
    var c := AsCurrent(h);
    SrcOnebotUtils.HistoryNodesShape(s, selfId, c);
    forall i | 0 <= i < |h|
      ensures SrcOnebotUtils.ConversationNodes(s, selfId, c[i]).Ok? <==> SrcDataModel.ContentAnswer(h[i].reply).Ok?
    {
      SrcOnebotUtils.ConversationNodesContent(s, selfId, c[i]);
    }
    if HistoryBundle(sender, selfId, h).Ok? {
      var m := HistoryBundle(sender, selfId, h).value;
      forall i | 0 <= i < |h|
        ensures m[2 * i] == Node(sender.userId, sender.nickname, [Text(h[i].ask)])
        ensures m[2 * i + 1] == Node(selfId, "Bing", [Text(SrcDataModel.ContentAnswer(h[i].reply).value)])
      {
        SrcOnebotUtils.ConversationNodesContent(s, selfId, c[i]);
        assert m[2 * i..2 * i + 2] == SrcOnebotUtils.ConversationNodes(s, selfId, c[i]).value;
        assert m[2 * i] == m[2 * i..2 * i + 2][0];
        assert m[2 * i + 1] == m[2 * i..2 * i + 2][1];
      }
    }
  }

  /** `bing_chat_command_history_chat`: an argument is refused, then the
      admission check; an empty history is reported; otherwise the bundle is
      forwarded to the group or the private chat (to nowhere in a guild
      channel). No session changes. */
  method History(store: Sessions, f: SrcOnebotCheck.Filter, world: Effects.World, event: Event, arg: string,
                 selfId: int, lastTime: int) returns (end: End)
    requires event.OneBot?
    modifies store, world
    ensures arg != "" ==>
              end == SrcOnebotMain.Finished && world.sent == old(world.sent) + [Quote(event, "此命令没有参数，不要在命令后加别的内容")]
              && store.userDataDict == old(store.userDataDict)
    ensures var c := OnebotCheck.CheckIfInList(f, event.kind, event.subType, event.userId);
            arg == "" && c.Err? ==>
              end == SrcOnebotMain.Finished && world.sent == old(world.sent) + [Quote(event, Describe(c.error))]
              && store.userDataDict == old(store.userDataDict)
    ensures var c := OnebotCheck.CheckIfInList(f, event.kind, event.subType, event.userId);
            arg == "" && c.Ok? && HistoryBefore(store.userDataDict, event.userId) == [] ==>
              end == SrcOnebotMain.Finished && world.sent == old(world.sent) + [Quote(event, "您没有历史对话")]
    ensures var c := OnebotCheck.CheckIfInList(f, event.kind, event.subType, event.userId);
            arg == "" && c.Ok? && HistoryBefore(store.userDataDict, event.userId) != [] ==>
              var u := store.userDataDict[event.userId];
              var b := HistoryBundle(u.sender, selfId, u.history);
              (b.Err? ==> end == SrcOnebotMain.Raised(b.error) && world.sent == old(world.sent))
              && (b.Ok? ==> end == SrcOnebotMain.Returned
                            && world.sent == old(world.sent) + (if event.kind.GuildChat? then [] else [b.value]))
    ensures world.deleted == old(world.deleted) && world.asked == old(world.asked)
    ensures StoreGrows(store, event.userId)
  {
    if arg != "" {
      var _ := world.Send(Quote(event, "此命令没有参数，不要在命令后加别的内容"));
      return SrcOnebotMain.Finished;
    }
    var admitted := OnebotCheck.CheckIfInList(f, event.kind, event.subType, event.userId);
    if admitted.Err? {
      var _ := world.Send(Quote(event, Describe(admitted.error)));
      return SrcOnebotMain.Finished;
    }
    var user := GetUserDataSafe(store, event, lastTime);
    if user.history == [] {
      var _ := world.Send(Quote(event, "您没有历史对话"));
      return SrcOnebotMain.Finished;
    }
    user := store.userDataDict[event.userId];
    var msg := HistoryBundle(user.sender, selfId, user.history);
    if msg.Err? {
      return SrcOnebotMain.Raised(msg.error);
    }
    if !event.kind.GuildChat? {
      var _ := world.Send(msg.value);
    }
    return SrcOnebotMain.Returned;
  }
}
