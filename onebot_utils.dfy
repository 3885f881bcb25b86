/** The older OneBot v11 display builders
    (nonebot_plugin_bing_chat/onebotv11/utils.py). The file reads the
    session types of the current package (its `latest_response` and content
    types exist only there), so they are used here. Its session lookup,
    reply wrapping, history bundle and continue-chat rule repeat the current
    code and are modelled by SrcOnebotUtils. */
module OnebotUtils {
  import opened Json
  import opened Text
  import opened Errors
  import opened Messages
  import SrcDataModel
  import SrcCommonUtils
  import SrcOnebotUtils

  /** The heading of a content type; the same for text and image. */
  function Heading(contentType: string): (p: string)
    ensures p == SrcCommonUtils.Prefix("text", contentType)
  {
    if contentType == "reference" then "参考链接：\n"
    else if contentType == "suggested-question" then "猜你想问：\n"
    else if contentType == "num-max-conversation" then "回复数："
    else ""
  }

  /** Reading one content type with `get` and putting its heading in front. */
  function HeadedBy(get: string -> Result<string>): string -> Result<string>
  {
    t => match get(t)
         case Err(e) => Err(e)
         case Ok(c) => Ok(Heading(t) + c)
  }

  /** The headed contents of the content types, empty ones included,
      stopping at the first that raises. */
  function Parts(raw: Json, types: seq<string>): Result<seq<string>>
  {
    Collect(HeadedBy(SrcCommonUtils.ContentOf(raw)), types)
  }

  /** Every content type contributes one part, even an empty content, so
      there are as many parts as content types, each its type's heading and
      content. */
  lemma PartsOnePerType(raw: Json, types: seq<string>)
    ensures Parts(raw, types).Ok? <==> forall i :: 0 <= i < |types| ==> SrcDataModel.GetContent(raw, types[i]).Ok?
    ensures Parts(raw, types).Ok? ==>
              |Parts(raw, types).value| == |types|
              && forall i :: 0 <= i < |types| ==>
                   Parts(raw, types).value[i] == Heading(types[i]) + SrcDataModel.GetContent(raw, types[i]).value
  {
    CollectShape(HeadedBy(SrcCommonUtils.ContentOf(raw)), types);
    forall i | 0 <= i < |types|
      ensures HeadedBy(SrcCommonUtils.ContentOf(raw))(types[i]).Ok? <==> SrcDataModel.GetContent(raw, types[i]).Ok?
      ensures SrcDataModel.GetContent(raw, types[i]).Ok? ==>
                HeadedBy(SrcCommonUtils.ContentOf(raw))(types[i]).value
                == Heading(types[i]) + SrcDataModel.GetContent(raw, types[i]).value
    {
    }
  }

  /** Where no content is empty, the older parts are the current text parts;
      the current builder differs only by skipping empty contents. */
  lemma {:induction false} PartsAgreeWithoutEmpty(raw: Json, types: seq<string>)
    requires forall i :: 0 <= i < |types| ==> SrcDataModel.GetContent(raw, types[i]) != Ok("")
    ensures Parts(raw, types) == SrcCommonUtils.Parts(raw, "text", types)
    decreases |types|
  {
    if types != [] {
      var init := types[..|types| - 1];
      assert forall i :: 0 <= i < |init| ==> init[i] == types[i];
      PartsAgreeWithoutEmpty(raw, init);
      SrcCommonUtils.ContentsPrefix(raw, types, |init|);
    }
  }

  /** An empty content still leaves its heading behind, where the current
      builder leaves nothing. */
  lemma EmptyContentKeepsHeading(raw: Json, types: seq<string>, t: string)
    requires Parts(raw, types).Ok? && SrcDataModel.GetContent(raw, t) == Ok("")
    ensures Parts(raw, types + [t]) == Ok(Parts(raw, types).value + [Heading(t)])
    ensures SrcCommonUtils.Parts(raw, "text", types + [t]) == SrcCommonUtils.Parts(raw, "text", types)
  {
    assert (types + [t])[..|types|] == types;
    assert Heading(t) + "" == Heading(t);
    SrcCommonUtils.PartsSkipEmpty(raw, "text", types, t);
  }

  /** The message for a list of parts: none when there are no parts. */
  function Assemble(displayType: string, parts: seq<string>): (m: Message)
    ensures parts == [] ==> m == []
    ensures parts != [] && displayType == "text" ==> m == [Text(Join(parts, "\n\n"))]
    ensures parts != [] && displayType == "image" ==> m == [Image(Join(parts, "\n\n---\n\n"))]
  {
    if parts == [] then []
    else if displayType == "text" then [Text(Join(parts, "\n\n"))]
    else if displayType == "image" then [Image(Join(parts, "\n\n---\n\n"))]
    else []
  }

  /** The message of one display entry for a session's history. The latest
      reply is read inside the loop over content types, so an entry without
      any gives an empty message even for an empty history. */
  function DisplayMessageOf(h: seq<SrcDataModel.Conversation>, entry: SrcDataModel.DisplayContentType): Result<Message>
  {
    if h == [] then (if entry.contentTypes == [] then Ok([]) else Err(PyIndexError))
    else match Parts(h[|h| - 1].response, entry.contentTypes)
      case Err(e) => Err(e)
      case Ok(parts) => Ok(Assemble(entry.displayType, parts))
  }

  /** The loop of `get_display_message`: reads each content type with `get`
      (`get_content` on the latest reply) and keeps its headed content. */
  method CollectHeaded(get: string -> Result<string>, types: seq<string>) returns (r: Result<seq<string>>)
    ensures r == Collect(HeadedBy(get), types)
  {
    var parts: seq<string> := [];
    var i := 0;
    while i < |types|
      invariant 0 <= i <= |types|
      invariant Collect(HeadedBy(get), types[..i]) == Ok(parts)
    {
      assert types[..i + 1][..i] == types[..i];
      var content := get(types[i]);
      if content.Err? {
        assert Collect(HeadedBy(get), types[..i + 1]) == Err(content.error);
        CollectErrExtends(HeadedBy(get), types, i + 1);
        return Err(content.error);
      }
      parts := parts + [Heading(types[i]) + content.value];
      i := i + 1;
    }
    assert types[..i] == types;
    return Ok(parts);
  }

  /** `get_display_message`: every content type gives a headed part, and the
      parts are joined into one message. */
  method GetDisplayMessage(user: SrcDataModel.UserData, entry: SrcDataModel.DisplayContentType) returns (r: Result<Message>)
    requires entry.displayType in SrcDataModel.DisplayTypes
    ensures r == DisplayMessageOf(user.history, entry)
    ensures entry.contentTypes == [] ==> r == Ok([])
    ensures user.history == [] && entry.contentTypes != [] ==> r == Err(PyIndexError)
  {
    if entry.contentTypes == [] {
      assert user.history != [] ==> Parts(user.history[|user.history| - 1].response, []) == Ok([]);
      return Ok([]);
    }
    var latest := user.LatestConversation();
    if latest.Err? {
      return Err(latest.error);
    }
    var parts := CollectHeaded(SrcCommonUtils.ContentOf(latest.value.response), entry.contentTypes);
    if parts.Err? {
      return Err(parts.error);
    }
    var msg: Message := [];
    if parts.value != [] {
      if entry.displayType == "text" {
        msg := msg + [Text(Join(parts.value, "\n\n"))];
      } else {
        msg := msg + [Image(Join(parts.value, "\n\n---\n\n"))];
      }
    }
    assert parts == Parts(latest.value.response, entry.contentTypes);
    assert msg == Assemble(entry.displayType, parts.value);
    return Ok(msg);
  }

  /** Building one entry's message, as a function of the entry. */
  function DisplayOf(h: seq<SrcDataModel.Conversation>): SrcDataModel.DisplayContentType -> Result<Message>
  {
    entry => DisplayMessageOf(h, entry)
  }

  /** The messages for the display entries, stopping at the first that
      raises. */
  function DisplayList(h: seq<SrcDataModel.Conversation>, entries: seq<SrcDataModel.DisplayContentType>): Result<seq<Message>>
  {
    Collect(DisplayOf(h), entries)
  }

  /** One message per configured entry, in configuration order. */
  lemma DisplayListShape(h: seq<SrcDataModel.Conversation>, entries: seq<SrcDataModel.DisplayContentType>)
    ensures DisplayList(h, entries).Ok? <==> forall i :: 0 <= i < |entries| ==> DisplayMessageOf(h, entries[i]).Ok?
    ensures DisplayList(h, entries).Ok? ==>
              |DisplayList(h, entries).value| == |entries|
              && forall i :: 0 <= i < |entries| ==> DisplayList(h, entries).value[i] == DisplayMessageOf(h, entries[i]).value
  {
    CollectShape(DisplayOf(h), entries);
    assert forall i :: 0 <= i < |entries| ==> DisplayOf(h)(entries[i]) == DisplayMessageOf(h, entries[i]);
  }

  /** `get_display_message_list`. */
  method GetDisplayMessageList(user: SrcDataModel.UserData, entries: seq<SrcDataModel.DisplayContentType>)
      returns (r: Result<seq<Message>>)
    requires forall i :: 0 <= i < |entries| ==> entries[i].displayType in SrcDataModel.DisplayTypes
    ensures r == DisplayList(user.history, entries)
  {
    var msgList: seq<Message> := [];
    var i := 0;
    while i < |entries|
      invariant 0 <= i <= |entries|
      invariant DisplayList(user.history, entries[..i]) == Ok(msgList)
    {
      var msg := GetDisplayMessage(user, entries[i]);
      assert msg == DisplayOf(user.history)(entries[i]);
      CollectStep(DisplayOf(user.history), entries, i);
      if msg.Err? {
        CollectErrExtends(DisplayOf(user.history), entries, i + 1);
        return Err(msg.error);
      }
      msgList := msgList + [msg.value];
      i := i + 1;
    }
    assert entries[..i] == entries;
    return Ok(msgList);
  }

  /** `get_display_message_forward`: the same messages as nodes in the
      user's name. */
  method GetDisplayMessageForward(user: SrcDataModel.UserData, entries: seq<SrcDataModel.DisplayContentType>)
      returns (r: Result<Message>)
    requires forall i :: 0 <= i < |entries| ==> entries[i].displayType in SrcDataModel.DisplayTypes
    ensures DisplayList(user.history, entries).Err? ==> r == Err(DisplayList(user.history, entries).error)
    ensures DisplayList(user.history, entries).Ok? ==>
              r == Ok(SrcOnebotUtils.Forward(user.sender, DisplayList(user.history, entries).value))
  {
    var nodes: Message := [];
    var i := 0;
    while i < |entries|
      invariant 0 <= i <= |entries|
      invariant DisplayList(user.history, entries[..i]).Ok?
      invariant nodes == SrcOnebotUtils.Forward(user.sender, DisplayList(user.history, entries[..i]).value)
    {
      var msg := GetDisplayMessage(user, entries[i]);
      assert msg == DisplayOf(user.history)(entries[i]);
      CollectStep(DisplayOf(user.history), entries, i);
      if msg.Err? {
        CollectErrExtends(DisplayOf(user.history), entries, i + 1);
        return Err(msg.error);
      }
      SrcOnebotUtils.ForwardSnoc(user.sender, DisplayList(user.history, entries[..i]).value, msg.value);
      nodes := nodes + [Node(user.sender.userId, user.sender.userName, msg.value)];
      i := i + 1;
    }
    assert entries[..i] == entries;
    return Ok(nodes);
  }
}
