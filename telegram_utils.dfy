/** The Telegram helpers of the current package
    (src/plugins/.../telegram/utils.py): session lookup, reply wrapping and
    the display messages, which can only be text. */
module TelegramUtils {
  import opened Json
  import opened Errors
  import opened Messages
  import SrcDataModel
  import SrcCommonUtils
  import SrcOnebotUtils

  /** `default_get_user_data`: the session under `UserInfo('telegram', id)`,
      created from the sender's username when there is none. */
  method DefaultGetUserData(data: SrcDataModel.PluginData, fromId: int, username: string, lastTime: int)
      returns (u: SrcDataModel.UserData)
    modifies data
    ensures SrcDataModel.UserInfo("telegram", fromId) in data.userDataDict
    ensures data.userDataDict[SrcDataModel.UserInfo("telegram", fromId)] == u
    ensures SrcDataModel.UserInfo("telegram", fromId) in old(data.userDataDict) ==>
              u == old(data.userDataDict)[SrcDataModel.UserInfo("telegram", fromId)] && data.userDataDict == old(data.userDataDict)
    ensures SrcDataModel.UserInfo("telegram", fromId) !in old(data.userDataDict) ==>
              fresh(u) && data.userDataDict == old(data.userDataDict)[SrcDataModel.UserInfo("telegram", fromId) := u]
              && u.sender == SrcCommonUtils.SenderOf(fromId, username)
              && u.history == [] && !u.isWaiting && u.chatbot.None?
    ensures data.replyMessageIdDict == old(data.replyMessageIdDict)
    ensures data.cookiesFilePathList == old(data.cookiesFilePathList)
    ensures data.currentCookiesFilePath == old(data.currentCookiesFilePath)
    ensures data.isSwitchingCookies == old(data.isSwitchingCookies)
  {
    var key := SrcDataModel.UserInfo("telegram", fromId);
    var fallback := new SrcDataModel.UserData(SrcCommonUtils.SenderOf(fromId, username), lastTime);
    if key in data.userDataDict {
      return data.userDataDict[key];
    }
    data.userDataDict := data.userDataDict[key := fallback];
    return fallback;
  }

  /** `reply_out`: the content alone; replies are not implemented. */
  function ReplyOut(content: Message): (m: Message)
    ensures |m| == |content| && forall i :: 0 <= i < |m| ==> !m[i].ReplyTo? || content[i].ReplyTo?
  {
    content
  }

  /** A Telegram reply looks like a OneBot reply in a guild channel: the
      content, quoting nothing. */
  lemma ReplyOutLikeGuild(content: Message, guildId: int, channelId: int, messageId: int)
    ensures ReplyOut(content) == SrcOnebotUtils.ReplyOut(GuildChat(guildId, channelId), messageId, content)
  {
  }

  /** The message of one display entry: text only. */
  function DisplayMessageOf(h: seq<SrcDataModel.Conversation>, entry: SrcDataModel.DisplayContentType): Result<Message>
  {
    match SrcCommonUtils.LatestData(h, entry)
    case Err(e) => Err(e)
    case Ok(d) => if d.TextData? then Ok([Text(d.text)]) else Err(NotImplemented)
  }

  /** An image entry never yields a message; the display data is still
      assembled first, so its own errors come before `NotImplementedError`. */
  lemma ImageNotImplemented(h: seq<SrcDataModel.Conversation>, entry: SrcDataModel.DisplayContentType)
    requires entry.displayType == "image"
    ensures DisplayMessageOf(h, entry).Err?
    ensures SrcCommonUtils.LatestData(h, entry).Ok? ==> DisplayMessageOf(h, entry) == Err(NotImplemented)
    ensures SrcCommonUtils.LatestData(h, entry).Err? ==> DisplayMessageOf(h, entry) == Err(SrcCommonUtils.LatestData(h, entry).error)
  {
  }

  /** A text entry gives the same message as on OneBot. */
  lemma TextAsOnOneBot(h: seq<SrcDataModel.Conversation>, entry: SrcDataModel.DisplayContentType)
    requires entry.displayType == "text"
    ensures SrcCommonUtils.LatestData(h, entry).Ok? ==>
              DisplayMessageOf(h, entry) == Ok(SrcOnebotUtils.MessageOf(SrcCommonUtils.LatestData(h, entry).value))
  {
  }

  /** `get_display_message`. */
  method GetDisplayMessage(user: SrcDataModel.UserData, entry: SrcDataModel.DisplayContentType) returns (r: Result<Message>)
    requires entry.displayType in SrcDataModel.DisplayTypes
    ensures r == DisplayMessageOf(user.history, entry)
    ensures user.history == [] && entry.contentTypes != [] ==> r == Err(PyIndexError)
    ensures entry.contentTypes == [] ==> r == (if entry.displayType == "text" then Ok([Text("")]) else Err(NotImplemented))
  {
    SrcCommonUtils.LatestDataEmpty(user.history, entry);
    var data := SrcCommonUtils.GetDisplayData(user, entry);
    if data.Err? {
      return Err(data.error);
    }
    if data.value.TextData? {
      return Ok([Text(data.value.text)]);
    }
    return Err(NotImplemented);
  }

  /** Building one entry's message, as a function of the entry. */
  function DisplayOf(h: seq<SrcDataModel.Conversation>): SrcDataModel.DisplayContentType -> Result<Message>
  {
    entry => DisplayMessageOf(h, entry)
  }

  /** The messages for the display entries, stopping at the first that
      raises. */
  function DisplayList(h: seq<SrcDataModel.Conversation>, entries: seq<SrcDataModel.DisplayContentType>): Result<seq<Message>>
  {
    Collect(DisplayOf(h), entries)
  }

  /** One message per configured entry, in order, when none raises; any
      image entry makes the whole list raise. */
  lemma DisplayListShape(h: seq<SrcDataModel.Conversation>, entries: seq<SrcDataModel.DisplayContentType>)
    ensures DisplayList(h, entries).Ok? <==> forall i :: 0 <= i < |entries| ==> DisplayMessageOf(h, entries[i]).Ok?
    ensures DisplayList(h, entries).Ok? ==>
              |DisplayList(h, entries).value| == |entries|
              && (forall i :: 0 <= i < |entries| ==> entries[i].displayType != "image")
              && forall i :: 0 <= i < |entries| ==> DisplayList(h, entries).value[i] == DisplayMessageOf(h, entries[i]).value
  {
    CollectShape(DisplayOf(h), entries);
    assert forall i :: 0 <= i < |entries| ==> DisplayOf(h)(entries[i]) == DisplayMessageOf(h, entries[i]);
    forall i | 0 <= i < |entries| && entries[i].displayType == "image"
      ensures DisplayMessageOf(h, entries[i]).Err?
    {
      ImageNotImplemented(h, entries[i]);
    }
  }

  /** `get_display_message_list`. */
  method GetDisplayMessageList(user: SrcDataModel.UserData, entries: seq<SrcDataModel.DisplayContentType>)
      returns (r: Result<seq<Message>>)
    requires forall i :: 0 <= i < |entries| ==> entries[i].displayType in SrcDataModel.DisplayTypes
    ensures r == DisplayList(user.history, entries)
  {
    var msgList: seq<Message> := [];
    var i := 0;
    while i < |entries|
      invariant 0 <= i <= |entries|
      invariant DisplayList(user.history, entries[..i]) == Ok(msgList)
    {
      var msg := GetDisplayMessage(user, entries[i]);
      assert msg == DisplayOf(user.history)(entries[i]);
      CollectStep(DisplayOf(user.history), entries, i);
      if msg.Err? {
        CollectErrExtends(DisplayOf(user.history), entries, i + 1);
        return Err(msg.error);
      }
      msgList := msgList + [msg.value];
      i := i + 1;
    }
    assert entries[..i] == entries;
    return Ok(msgList);
  }
}
