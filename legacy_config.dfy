/** The earliest configuration (nonebot_plugin_bing_chat/config.py): list
    defaults and two `list(v)` validators. */
module LegacyConfig {
  import opened Json
  import SrcDataModel

  /** The settings, with command values as given or as validated. */
  datatype Config = Config(
    superusers: seq<int>,
    commandChat: seq<string>,
    commandNewChat: seq<string>,
    commandHistoryChat: SrcDataModel.Setting,
    groupFilterMode: SrcDataModel.FilterMode,
    groupFilterBlacklist: seq<int>,
    groupFilterWhitelist: seq<int>)

  /** `list(v)` after the `str | list[str]` field check: a list stays as it
      is, a bare string becomes the list of its characters. */
  function ListValidator(v: SrcDataModel.Setting): (r: seq<string>)
    ensures v.SList? ==> r == v.items
    ensures v.SStr? ==> |r| == |v.s| && forall i :: 0 <= i < |r| ==> r[i] == [v.s[i]]
  {
    match v
    case SStr(s) => seq(|s|, i requires 0 <= i < |s| => [s[i]])
    case SList(xs) => xs
  }

  /** The settings for the three command values the user may give; the
      history command has no validator and is kept as given. Defaults are
      not validated. */
  function ConfigOf(chat: Option<SrcDataModel.Setting>, newChat: Option<SrcDataModel.Setting>,
                    history: Option<SrcDataModel.Setting>): (c: Config)
    ensures chat.None? ==> c.commandChat == ["chat"]
    ensures newChat.None? ==> c.commandNewChat == ["chat-new", "刷新对话"]
    ensures history.None? ==> c.commandHistoryChat == SrcDataModel.SList(["chat-history"])
    ensures history.Some? ==> c.commandHistoryChat == history.value
    ensures chat.Some? && chat.value.SList? ==> c.commandChat == chat.value.items
    ensures chat.Some? && chat.value.SStr? ==> |c.commandChat| == |chat.value.s|
    ensures chat.Some? ==> c.commandChat == ListValidator(chat.value)
    ensures newChat.Some? ==> c.commandNewChat == ListValidator(newChat.value)
    ensures c.superusers == [] && c.groupFilterMode == SrcDataModel.Blacklist
    ensures c.groupFilterBlacklist == [] && c.groupFilterWhitelist == []
  {
    Config([],
           if chat.Some? then ListValidator(chat.value) else ["chat"],
           if newChat.Some? then ListValidator(newChat.value) else ["chat-new", "刷新对话"],
           if history.Some? then history.value else SrcDataModel.SList(["chat-history"]),
           SrcDataModel.Blacklist, [], [])
  }

  /** Validating twice changes nothing, and a bare command string is split
      into letters rather than kept whole, unlike the current validator. */
  lemma ListValidatorFacts(v: SrcDataModel.Setting)
    ensures ListValidator(SrcDataModel.SList(ListValidator(v))) == ListValidator(v)
    ensures ListValidator(SrcDataModel.SStr("chat")) == ["c", "h", "a", "t"]
    ensures SrcDataModel.CommandValidator("bingchat_command_chat", SrcDataModel.SStr("chat")).value == {"chat"}
  {
    assert ListValidator(SrcDataModel.SStr("chat"))[0] == "c";
  }
}
