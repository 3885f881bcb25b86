/** The data model of the older package (nonebot_plugin_bing_chat/common/
    data_model.py): its response classifier, which has no invalid-session
    or offensive case, its accessors, and its configuration with the
    mapping of deprecated keys. */
module DataModel {
  import opened Json
  import opened Text
  import opened Errors
  import SrcDataModel

  // ------------------------------------------------------------------
  // Response classification
  // ------------------------------------------------------------------

  /** `rawValidator`: throttled, conversation limit, hidden text, accepted,
      unknown — every case but the first under a `Success` result. As in
      the current package, a TypeError from the counter comparison ends as
      a ValidationError. */
  function RawValidator(v: Json): (r: Verdict)
    ensures r.Accepted? ==> r.raw == v && SrcDataModel.MessagePair(v).Some?
    ensures SrcDataModel.ResultValue(v) == Some(SrcDataModel.Throttled) ==> r == Rejected(AccountReachLimit)
    ensures SrcDataModel.ResultValue(v) !in {Some(SrcDataModel.Throttled), Some(SrcDataModel.SuccessValue)} ==>
              r == Rejected(UnknownResponse)
    ensures r.Rejected? ==> !r.error.InvalidSession? && !r.error.Offensive?
    ensures r.Rejected? && r.error.Hidden? ==>
              SrcDataModel.MessagePair(v).Some? && Field(SrcDataModel.MessagePair(v).value.1, "hiddenText") == Some(r.error.text)
    ensures SrcDataModel.ResultValue(v) == Some(SrcDataModel.SuccessValue) && SrcDataModel.LimitCounters(v).Some?
            && SrcDataModel.PyGreater(SrcDataModel.LimitCounters(v).value.0, SrcDataModel.LimitCounters(v).value.1) == Some(true)
            ==> r == Rejected(ConversationReachLimit(SrcDataModel.LimitCounters(v).value.0, SrcDataModel.LimitCounters(v).value.1))
    ensures SrcDataModel.ResultValue(v) == Some(SrcDataModel.SuccessValue) && SrcDataModel.WithinLimit(v)
            && SrcDataModel.MessagePair(v).Some? && Field(SrcDataModel.MessagePair(v).value.1, "hiddenText").Some?
            ==> r == Rejected(Hidden(Field(SrcDataModel.MessagePair(v).value.1, "hiddenText").value))
  {
    var value := SrcDataModel.ResultValue(v);
    if value == Some(SrcDataModel.Throttled) then Rejected(AccountReachLimit)
    else if value != Some(SrcDataModel.SuccessValue) then Rejected(UnknownResponse)
    else
      var limited :=
        match SrcDataModel.LimitCounters(v)
        case None => Some(false)
        case Some((num, max)) => SrcDataModel.PyGreater(num, max);
      if limited.None? then Rejected(ValidationError)
      else if limited.value then Rejected(ConversationReachLimit(SrcDataModel.LimitCounters(v).value.0, SrcDataModel.LimitCounters(v).value.1))
      else match SrcDataModel.MessagePair(v)
        case None => Rejected(UnknownResponse)
        case Some((_, second)) =>
          if Field(second, "hiddenText").Some? then Rejected(Hidden(Field(second, "hiddenText").value))
          else if Field(second, "text").Some? then Accepted(v)
          else Rejected(UnknownResponse)
  }

  /** What this `rawValidator` returns unchanged, stated all at once: the
      current package's acceptable replies without the offense condition. */
  predicate Acceptable(v: Json)
  {
    && SrcDataModel.ResultValue(v) == Some(SrcDataModel.SuccessValue)
    && SrcDataModel.WithinLimit(v)
    && SrcDataModel.MessagePair(v).Some?
    && Field(SrcDataModel.MessagePair(v).value.1, "hiddenText").None?
    && Field(SrcDataModel.MessagePair(v).value.1, "text").Some?
  }

  /** The chain accepts exactly the acceptable replies. */
  lemma AcceptsIff(v: Json)
    ensures RawValidator(v).Accepted? <==> Acceptable(v)
  {
  }

  /** Validating `BingChatResponse(raw=v)`: the `dict` field's coercion,
      then `rawValidator` on the coerced mapping. */
  function Classify(v: Json): (r: Verdict)
    ensures AsDict(v, false).None? ==> r == Rejected(ValidationError)
    ensures v.JObj? ==> r == RawValidator(v)
    ensures r.Accepted? ==> r.raw.JObj? && AsDict(v, false) == Some(r.raw)
  {
    match AsDict(v, false)
    case None => Rejected(ValidationError)
    case Some(d) => RawValidator(d)
  }

  /** Whatever the current classifier accepts, this one accepts too, and
      both keep the same mapping. */
  lemma NewerAcceptedIsAccepted(v: Json)
    requires SrcDataModel.Classify(v).Accepted?
    ensures Classify(v) == SrcDataModel.Classify(v)
  {
    SrcDataModel.ClassifyAcceptsIff(v);
  }

  /** The two classifiers differ on acceptance only over an offensive first
      message. */
  lemma AcceptedDiffersOnlyOnOffense(v: Json)
    requires Classify(v).Accepted?
    requires Field(SrcDataModel.MessagePair(Classify(v).raw).value.0, "offense") != Some(JStr("Offensive"))
    ensures SrcDataModel.Classify(v).Accepted?
  {
    SrcDataModel.ClassifyAcceptsIff(v);
  }

  /** A `Success` reply whose first message is flagged offensive, and whose
      second carries text. */
  function OffensiveReply(): Json
  {
    JObj(map["item" := JObj(map[
      "result" := JObj(map["value" := JStr("Success")]),
      "messages" := JArr([JObj(map["offense" := JStr("Offensive")]), JObj(map["text" := JStr("answer")])])])])
  }

  /** The older classifier accepts an offensive reply the current one
      rejects, and ends an expired session as unknown. */
  lemma OlderGapsExample()
    ensures Classify(OffensiveReply()).Accepted?
    ensures SrcDataModel.Classify(OffensiveReply()) == Rejected(Offensive)
    ensures Classify(JObj(map["item" := JObj(map["result" := JObj(map["value" := JStr("InvalidSession")])])]))
            == Rejected(UnknownResponse)
  {
    OlderAcceptsOffensive();
    CurrentRejectsOffensive();
    OlderInvalidSessionUnknown();
  }

  lemma OlderInvalidSessionUnknown()
    ensures Classify(JObj(map["item" := JObj(map["result" := JObj(map["value" := JStr("InvalidSession")])])]))
            == Rejected(UnknownResponse)
  {
    var v := JObj(map["item" := JObj(map["result" := JObj(map["value" := JStr("InvalidSession")])])]);
    assert SrcDataModel.ResultValue(v) == Some(JStr("InvalidSession"));
  }

  /** The fields both classifiers read from the offensive reply. */
  lemma OffensiveReplyFields()
    ensures SrcDataModel.ResultValue(OffensiveReply()) == Some(SrcDataModel.SuccessValue)
    ensures SrcDataModel.LimitCounters(OffensiveReply()) == None
    ensures SrcDataModel.MessagePair(OffensiveReply())
            == Some((JObj(map["offense" := JStr("Offensive")]), JObj(map["text" := JStr("answer")])))
  {
  }

  lemma OlderAcceptsOffensive()
    ensures Classify(OffensiveReply()).Accepted?
  {
    OffensiveReplyFields();
  }

  lemma CurrentRejectsOffensive()
    ensures SrcDataModel.Classify(OffensiveReply()) == Rejected(Offensive)
  {
    OffensiveReplyFields();
  }

  // ------------------------------------------------------------------
  // Content accessors
  // ------------------------------------------------------------------

  /** `adaptive_cards`: the first card's body as it is (no copy into a list). */
  function AdaptiveCards(raw: Json): (r: Result<Json>)
    ensures var x := Walk(raw, SrcDataModel.SecondMessage + [Key("adaptiveCards"), Index(0), Key("body")]);
            (x.Hit? ==> r == Ok(x.value)) && (x.Miss? ==> r == Err(SrcDataModel.Translate(x.error)))
  {
    SrcDataModel.Lookup(raw, SrcDataModel.SecondMessage + [Key("adaptiveCards"), Index(0), Key("body")])
  }

  /** `content_reference`: the citation-stripped text of the first body element. */
  function ContentReference(raw: Json): (r: Result<string>)
    ensures var x := Walk(raw, SrcDataModel.SecondMessage + [Key("adaptiveCards"), Index(0), Key("body"), Index(0), Key("text")]);
            x.Hit? && x.value.JStr? ==> r == Ok(SrcDataModel.RemoveQuoteStr(x.value.s))
    ensures var x := Walk(raw, SrcDataModel.SecondMessage + [Key("adaptiveCards"), Index(0), Key("body"), Index(0), Key("text")]);
            x.Miss? ==> r == Err(SrcDataModel.Translate(x.error))
  {
    var body := SrcDataModel.SecondMessage + [Key("adaptiveCards"), Index(0), Key("body")];
    WalkAppend(raw, body, [Index(0), Key("text")]);
    assert body + [Index(0), Key("text")]
        == SrcDataModel.SecondMessage + [Key("adaptiveCards"), Index(0), Key("body"), Index(0), Key("text")];
    match AdaptiveCards(raw)
    case Err(e) => Err(e)
    case Ok(cards) =>
      match SrcDataModel.Lookup(cards, [Index(0), Key("text")])
      case Ok(JStr(s)) => Ok(SrcDataModel.RemoveQuoteStr(s))
      case Ok(_) => Err(PyTypeError)
      case Err(e) => Err(e)
  }

  /** `suggested_questions`: the `text` of each suggestion, appended one by
      one; the loop computes the same list as the current package's
      comprehension. */
  method SuggestedQuestions(raw: Json) returns (r: Result<seq<Json>>)
    ensures r == SrcDataModel.SuggestedQuestionList(raw)
  {
    var found := SrcDataModel.Lookup(raw, SrcDataModel.SecondMessage + [Key("suggestedResponses")]);
    if found.Err? {
      return Err(found.error);
    }
    match found.value {
      case JArr(items) =>
        var questions: seq<Json> := [];
        var i := 0;
        while i < |items|
          invariant 0 <= i <= |items| && |questions| == i
          invariant forall j :: 0 <= j < i ==> Subscript(items[j], Key("text")) == Hit(questions[j])
        {
          var q := Subscript(items[i], Key("text"));
          if q.Miss? {
            SrcDataModel.ProjectItemsFirstMiss(items, "text", i);
            return Err(SrcDataModel.Translate(q.error));
          }
          questions := questions + [q.value];
          i := i + 1;
        }
        SrcDataModel.ProjectItemsAllHit(items, "text", questions);
        return Ok(questions);
      case JObj(m) =>
        return if |m| == 0 then Ok([]) else Err(PyTypeError);
      case JStr(s) =>
        return if s == "" then Ok([]) else Err(PyTypeError);
      case _ =>
        return Err(PyTypeError);
    }
  }

  /** The strings of a list of JSON values, when they all are strings. */
  function Strings(xs: seq<Json>): (r: Option<seq<string>>)
    ensures r.Some? <==> forall i :: 0 <= i < |xs| ==> xs[i].JStr?
    ensures r.Some? ==> |r.value| == |xs| && forall i :: 0 <= i < |xs| ==> r.value[i] == xs[i].s
  {
    if forall i :: 0 <= i < |xs| ==> xs[i].JStr? then Some(seq(|xs|, i requires 0 <= i < |xs| => xs[i].s))
    else None
  }

  /** `content_suggested_question`: the suggestions joined by line breaks,
      with no bullets; a suggestion that is not a string raises TypeError. */
  function ContentSuggestedQuestion(raw: Json): (r: Result<string>)
    ensures SrcDataModel.SuggestedQuestionList(raw).Err? ==> r == Err(SrcDataModel.SuggestedQuestionList(raw).error)
  {
    match SrcDataModel.SuggestedQuestionList(raw)
    case Err(e) => Err(e)
    case Ok(qs) =>
      match Strings(qs)
      case None => Err(PyTypeError)
      case Some(lines) => Ok(Join(lines, "\n"))
  }

  /** Read back line by line, the text is the suggestions, in order. */
  lemma SuggestedQuestionLines(raw: Json)
    requires SrcDataModel.SuggestedQuestionList(raw).Ok?
    requires var qs := SrcDataModel.SuggestedQuestionList(raw).value;
             qs != [] && forall i :: 0 <= i < |qs| ==> qs[i].JStr? && SrcDataModel.NoNewline(qs[i].s)
    ensures ContentSuggestedQuestion(raw).Ok?
    ensures var qs := SrcDataModel.SuggestedQuestionList(raw).value;
            var lines := SplitAny(ContentSuggestedQuestion(raw).value, {'\n'});
            |lines| == |qs| && forall i :: 0 <= i < |qs| ==> JStr(lines[i]) == qs[i]
  {
    var qs := SrcDataModel.SuggestedQuestionList(raw).value;
    var lines := Strings(qs).value;
    SplitJoin(lines, '\n', {'\n'});
  }

  /** `get_content`: an unknown content type gives the empty string. */
  function GetContent(raw: Json, contentType: string): (r: Result<string>)
    ensures contentType !in {"answer", "reference", "suggested-question"} ==> r == Ok("")
    ensures contentType == "answer" ==> r == SrcDataModel.ContentAnswer(raw)
    ensures contentType == "reference" ==> r == ContentReference(raw)
    ensures contentType == "suggested-question" ==> r == ContentSuggestedQuestion(raw)
  {
    if contentType == "answer" then SrcDataModel.ContentAnswer(raw)
    else if contentType == "reference" then ContentReference(raw)
    else if contentType == "suggested-question" then ContentSuggestedQuestion(raw)
    else Ok("")
  }

  /** The current package raises where this one answers with nothing. */
  lemma UnknownContentTypeDiffers(raw: Json)
    ensures GetContent(raw, "num-max-conversation") == Ok("")
    ensures SrcDataModel.GetContent(raw, "summary") == Err(PyTypeError)
    ensures GetContent(raw, "summary") == Ok("")
  {
  }

  // ------------------------------------------------------------------
  // Configuration
  // ------------------------------------------------------------------

  /** The thirty allowed `bingchat_display_content_types` entries: a display
      type, a dot, and one to three distinct content types joined by `&`. */
  const DisplayLiterals: set<string> := {
    "text.answer", "text.reference", "text.suggested-question",
    "text.answer&reference", "text.answer&suggested-question", "text.reference&answer",
    "text.reference&suggested-question", "text.suggested-question&answer", "text.suggested-question&reference",
    "text.answer&reference&suggested-question", "text.answer&suggested-question&reference",
    "text.reference&answer&suggested-question", "text.reference&suggested-question&answer",
    "text.suggested-question&answer&reference", "text.suggested-question&reference&answer",
    "image.answer", "image.reference", "image.suggested-question",
    "image.answer&reference", "image.answer&suggested-question", "image.reference&answer",
    "image.reference&suggested-question", "image.suggested-question&answer", "image.suggested-question&reference",
    "image.answer&reference&suggested-question", "image.answer&suggested-question&reference",
    "image.reference&answer&suggested-question", "image.reference&suggested-question&answer",
    "image.suggested-question&answer&reference", "image.suggested-question&reference&answer"}

  datatype DisplayMode = Direct | Forward

  /** The settings of the older `Config` that its own code touches. */
  datatype Config = Config(
    commandChat: set<string>,
    commandNewChat: set<string>,
    commandHistoryChat: set<string>,
    displayIsWaiting: bool,
    displayMode: DisplayMode,
    displayContentTypes: seq<string>,
    autoRefreshConversation: bool)

  const DefaultConfig := Config({"chat"}, {"chat-new", "刷新对话"}, {"chat-history"}, true, Direct, ["text.answer"], true)

  /** Python truthiness of a JSON value. */
  predicate Truthy(x: Json)
  {
    match x
    case JNull => false
    case JBool(b) => b
    case JNum(n) => n != 0
    case JStr(s) => s != ""
    case JArr(xs) => xs != []
    case JObj(m) => m != map[]
  }

  /** A `str` field's conversion of one item: strings stay, numbers and
      booleans are written out, anything else is refused. */
  function AsStr(x: Json): Option<string>
  {
    match x
    case JStr(s) => Some(s)
    case JNum(_) => Some(Scalar(x))
    case JBool(_) => Some(Scalar(x))
    case _ => None
  }

  /** The strings `set(v)` holds once each item is a `str`. */
  function StrSet(xs: seq<Json>): (r: Option<set<string>>)
    ensures r.Some? ==> forall i :: 0 <= i < |xs| ==> AsStr(xs[i]).Some? && AsStr(xs[i]).value in r.value
    decreases |xs|
  {
    if xs == [] then Some({})
    else match (AsStr(xs[0]), StrSet(xs[1..]))
      case (Some(s), Some(rest)) => Some({s} + rest)
      case _ => None
  }

  /** The command validators: empty is refused, and `set(v)` of a bare
      string is the set of its characters. */
  function CommandValidator(field: string, v: Json): (r: Result<set<string>>)
    ensures !Truthy(v) ==> r.Err?
    ensures v.JStr? && v.s != "" ==> r == Ok(set i | 0 <= i < |v.s| :: [v.s[i]])
  {
    if !Truthy(v) then Err(PyValueError(field + "不能为空"))
    else match v
      case JStr(s) => Ok(set i | 0 <= i < |s| :: [s[i]])
      case JArr(xs) => (match StrSet(xs) case Some(r) => Ok(r) case None => Err(PyValueError(field)))
      case JObj(m) => Ok(m.Keys)
      case _ => Err(PyValueError(field))
  }

  /** A multi-letter command given as a bare string is split into letters. */
  lemma BareCommandSplit()
    ensures CommandValidator("bingchat_command_chat", JStr("chat")) == Ok({"c", "h", "a", "t"})
  {
    var s := "chat";
    assert (set i | 0 <= i < |s| :: [s[i]]) == {"c", "h", "a", "t"} by {
      assert [s[0]] == "c" && [s[1]] == "h" && [s[2]] == "a" && [s[3]] == "t";
    }
  }

  /** The validated value of one setting, or its default when absent. */
  function Setting<T>(data: map<string, Json>, key: string, default: T, validate: Json -> Result<T>): Result<T>
  {
    if key in data then validate(data[key]) else Ok(default)
  }

  /** ASCII lower-casing. Python's `str.lower` maps no other character
      onto a letter of pydantic's boolean words, so for them this is exact. */
  function Lower(s: string): (r: string)
    ensures |r| == |s|
  {
    seq(|s|, i requires 0 <= i < |s| => if 'A' <= s[i] <= 'Z' then (s[i] as int + 32) as char else s[i])
  }

  const BoolTrue: set<string> := {"1", "on", "t", "true", "y", "yes"}
  const BoolFalse: set<string> := {"0", "off", "f", "false", "n", "no"}

  /** pydantic's `bool` coercion: a boolean, the numbers 1 and 0, or one of
      the boolean words in any letter case; anything else is refused. */
  function PyBool(v: Json): (r: Option<bool>)
    ensures v.JBool? ==> r == Some(v.b)
    ensures v.JNum? ==> r == (if v.n == 1 then Some(true) else if v.n == 0 then Some(false) else None)
    ensures v.JNull? || v.JArr? || v.JObj? ==> r.None?
    ensures v.JStr? ==> (r == Some(true) <==> Lower(v.s) in BoolTrue) && (r == Some(false) <==> Lower(v.s) in BoolFalse)
  {
    match v
    case JBool(b) => Some(b)
    case JNum(n) => if n == 1 then Some(true) else if n == 0 then Some(false) else None
    case JStr(s) => if Lower(s) in BoolTrue then Some(true) else if Lower(s) in BoolFalse then Some(false) else None
    case _ => None
  }

  /** Words and numbers pydantic reads as booleans, and ones it refuses. */
  lemma PyBoolWords()
    ensures PyBool(JStr("Yes")) == Some(true) && PyBool(JStr("OFF")) == Some(false)
    ensures PyBool(JNum(1)) == Some(true) && PyBool(JNum(2)).None? && PyBool(JStr("maybe")).None?
  {
    assert Lower("Yes") == "yes";
    assert Lower("OFF") == "off";
    assert Lower("maybe") == "maybe";
  }

  function BoolField(v: Json): Result<bool>
  {
    match PyBool(v)
    case Some(b) => Ok(b)
    case None => Err(PyValueError("value could not be parsed to a boolean"))
  }

  /** The `bool` settings of `Config`. */
  const BoolSettings: set<string> := {"bingchat_block", "bingchat_to_me", "bingchat_share_chat",
    "bingchat_display_is_waiting", "bingchat_log", "bingchat_auto_refresh_conversation"}

  /** Every `bool` setting given has a value `bool` accepts. */
  predicate BoolsParse(data: map<string, Json>)
  {
    forall k :: k in BoolSettings && k in data ==> PyBool(data[k]).Some?
  }

  /** The required settings `superusers` and `command_start` are there and
      are lists (a set arrives as a list). Their elements are not checked. */
  predicate RequiredPresent(data: map<string, Json>)
  {
    && "superusers" in data && data["superusers"].JArr?
    && "command_start" in data && data["command_start"].JArr?
  }

  /** `bingchat_display_mode`: its validator turns any given value into a
      list (or fails), and a list is never one of the literals `direct`
      and `forward`, so a given value is always refused. */
  function DisplayModeField(v: Json): (r: Result<DisplayMode>)
    ensures r.Err?
  {
    if !Truthy(v) then Err(PyValueError("bingchat_display_mode不能为空"))
    else Err(PyValueError("unexpected value; permitted: 'direct', 'forward'"))
  }

  function DisplayContentTypesField(v: Json): (r: Result<seq<string>>)
    ensures r.Ok? ==> forall i :: 0 <= i < |r.value| ==> r.value[i] in DisplayLiterals
    ensures r.Ok? <==> v.JArr? && forall i :: 0 <= i < |v.items| ==> v.items[i].JStr? && v.items[i].s in DisplayLiterals
    ensures r.Ok? ==> |r.value| == |v.items| && forall i :: 0 <= i < |v.items| ==> r.value[i] == v.items[i].s
  {
    if v.JArr? && forall i :: 0 <= i < |v.items| ==> v.items[i].JStr? && v.items[i].s in DisplayLiterals then
      Ok(seq(|v.items|, i requires 0 <= i < |v.items| => v.items[i].s))
    else Err(PyValueError("unexpected value"))
  }

  /** Field validation of the (already renamed) settings: the required
      settings, every `bool` setting, the command sets, the display mode
      and content types, and the group filter mode; the model keeps the
      settings its code reads. */
  function Validate(data: map<string, Json>): (r: Result<Config>)
    ensures !RequiredPresent(data) ==> r.Err?
    ensures "bingchat_display_mode" in data ==> r.Err?
    ensures !BoolsParse(data) ==> r.Err?
    ensures "bingchat_group_filter_mode" in data && data["bingchat_group_filter_mode"] !in {JStr("whitelist"), JStr("blacklist")} ==> r.Err?
    ensures r.Ok? && "bingchat_display_is_waiting" in data ==> PyBool(data["bingchat_display_is_waiting"]) == Some(r.value.displayIsWaiting)
    ensures r.Ok? && "bingchat_display_is_waiting" !in data ==> r.value.displayIsWaiting
    ensures r.Ok? && "bingchat_auto_refresh_conversation" in data ==>
              PyBool(data["bingchat_auto_refresh_conversation"]) == Some(r.value.autoRefreshConversation)
    ensures r.Ok? && "bingchat_auto_refresh_conversation" !in data ==> r.value.autoRefreshConversation
    ensures r.Ok? && "bingchat_display_content_types" in data ==>
              DisplayContentTypesField(data["bingchat_display_content_types"]) == Ok(r.value.displayContentTypes)
    ensures r.Ok? && "bingchat_display_content_types" !in data ==> r.value.displayContentTypes == ["text.answer"]
  {
    var chat := Setting(data, "bingchat_command_chat", {"chat"}, v => CommandValidator("bingchat_command_chat", v));
    var newChat := Setting(data, "bingchat_command_new_chat", {"chat-new", "刷新对话"}, v => CommandValidator("bingchat_command_new_chat", v));
    var history := Setting(data, "bingchat_command_history_chat", {"chat-history"}, v => CommandValidator("bingchat_command_history_chat", v));
    var waiting := Setting(data, "bingchat_display_is_waiting", true, BoolField);
    var mode := Setting(data, "bingchat_display_mode", Direct, DisplayModeField);
    var types := Setting(data, "bingchat_display_content_types", ["text.answer"], DisplayContentTypesField);
    var refresh := Setting(data, "bingchat_auto_refresh_conversation", true, BoolField);
    if !RequiredPresent(data) then Err(PyValueError("field required"))
    else if !BoolsParse(data) then
      Err(PyValueError("value could not be parsed to a boolean"))
    else if "bingchat_group_filter_mode" in data && data["bingchat_group_filter_mode"] !in {JStr("whitelist"), JStr("blacklist")} then
      Err(PyValueError("unexpected value; permitted: 'whitelist', 'blacklist'"))
    else if chat.Err? then Err(chat.error)
    else if newChat.Err? then Err(newChat.error)
    else if history.Err? then Err(history.error)
    else if waiting.Err? then Err(waiting.error)
    else if mode.Err? then Err(mode.error)
    else if types.Err? then Err(types.error)
    else if refresh.Err? then Err(refresh.error)
    else Ok(Config(chat.value, newChat.value, history.value, waiting.value, mode.value, types.value, refresh.value))
  }

  /** The settings every driver configuration carries. */
  const Driver: map<string, Json> := map["superusers" := JArr([]), "command_start" := JArr([JStr("/")])]

  /** `Config.__init__` as written: `bingchat_show_detail` is rewritten into
      `bingchat_display_mode` and `bingchat_show_is_waiting` copied into
      `bingchat_display_is_waiting` before validation. */
  method ConfigInitAsWritten(data: map<string, Json>) returns (r: Result<Config>)
    ensures "bingchat_show_detail" in data ==> r.Err?
    ensures "bingchat_show_detail" !in data && "bingchat_show_is_waiting" in data && r.Ok? ==>
              PyBool(data["bingchat_show_is_waiting"]) == Some(r.value.displayIsWaiting)
    ensures "bingchat_show_detail" !in data && "bingchat_show_is_waiting" !in data ==> r == Validate(data)
  {
    var d := data;
    if "bingchat_show_detail" in d {
      d := d["bingchat_display_mode" :=
             JArr([JStr(if Truthy(d["bingchat_show_detail"]) then "text-answer&reference" else "text-answer")])];
    }
    if "bingchat_show_is_waiting" in d {
      d := d["bingchat_display_is_waiting" := d["bingchat_show_is_waiting"]];
    }
    r := Validate(d);
  }

  /** `Config.__init__` as intended: `bingchat_show_detail` chooses between
      the answer alone and the answer with its references, shown as text. */
  method ConfigInit(data: map<string, Json>) returns (r: Result<Config>)
    ensures "bingchat_show_detail" in data && "bingchat_display_content_types" !in data && r.Ok? ==>
              r.value.displayContentTypes ==
                (if Truthy(data["bingchat_show_detail"]) then ["text.answer&reference"] else ["text.answer"])
    ensures "bingchat_show_is_waiting" in data && r.Ok? ==>
              PyBool(data["bingchat_show_is_waiting"]) == Some(r.value.displayIsWaiting)
    ensures data == Driver["bingchat_show_detail" := JBool(true)] ==>
              r == Ok(DefaultConfig.(displayContentTypes := ["text.answer&reference"]))
  {
    var d := data;
    if "bingchat_show_detail" in d && "bingchat_display_content_types" !in d {
      d := d["bingchat_display_content_types" :=
             JArr([JStr(if Truthy(d["bingchat_show_detail"]) then "text.answer&reference" else "text.answer")])];
    }
    if "bingchat_show_is_waiting" in d {
      d := d["bingchat_display_is_waiting" := d["bingchat_show_is_waiting"]];
    }
    if data == Driver["bingchat_show_detail" := JBool(true)] {
      ShowDetailRewritten();
      ValidateShowDetail();
    }
    r := Validate(d);
  }

  /** The `bingchat_show_detail` example before its rewriting: it sets no
      content types and no waiting flag of its own. */
  lemma ShowDetailRewritten()
    ensures var data := Driver["bingchat_show_detail" := JBool(true)];
            && data["bingchat_show_detail"] == JBool(true)
            && "bingchat_display_content_types" !in data && "bingchat_show_is_waiting" !in data
            && data["bingchat_display_content_types" := JArr([JStr("text.answer&reference")])] == ShowDetailData
  {
    assert Driver.Keys == {"superusers", "command_start"};
  }

  /** The validated settings of the `bingchat_show_detail` example. */
  lemma ValidateShowDetail()
    ensures Validate(ShowDetailData) == Ok(DefaultConfig.(displayContentTypes := ["text.answer&reference"]))
  {
    ShowDetailFields();
    ShowDetailAbsent();
    var d := ShowDetailData;
    assert Setting(d, "bingchat_display_content_types", ["text.answer"], DisplayContentTypesField) == Ok(["text.answer&reference"]);
  }

  /** The settings the `bingchat_show_detail` example leaves at their defaults. */
  lemma ShowDetailAbsent()
    ensures "bingchat_command_chat" !in ShowDetailData && "bingchat_command_new_chat" !in ShowDetailData
    ensures "bingchat_command_history_chat" !in ShowDetailData && "bingchat_display_is_waiting" !in ShowDetailData
    ensures "bingchat_display_mode" !in ShowDetailData && "bingchat_auto_refresh_conversation" !in ShowDetailData
    ensures "bingchat_group_filter_mode" !in ShowDetailData
  {
    assert ShowDetailData.Keys == {"superusers", "command_start", "bingchat_show_detail", "bingchat_display_content_types"};
  }

  /** `Driver` with `bingchat_show_detail` rewritten as intended. */
  const ShowDetailData: map<string, Json> :=
    Driver["bingchat_show_detail" := JBool(true)]["bingchat_display_content_types" := JArr([JStr("text.answer&reference")])]

  lemma ShowDetailFields()
    ensures BoolsParse(ShowDetailData) && RequiredPresent(ShowDetailData)
    ensures DisplayContentTypesField(JArr([JStr("text.answer&reference")])) == Ok(["text.answer&reference"])
  {
    assert forall k :: k in BoolSettings ==> k !in ShowDetailData;
    assert "text.answer&reference" in DisplayLiterals;
    var types := DisplayContentTypesField(JArr([JStr("text.answer&reference")]));
    assert types.Ok? && |types.value| == 1 && types.value[0] == "text.answer&reference";
    assert types.value == [types.value[0]];
  }

  // ------------------------------------------------------------------
  // Users
  // ------------------------------------------------------------------

  /** `UserInfo` (its platform field is spelt `platorm` in this package). */
  datatype UserInfo = UserInfo(platorm: string, userId: int)

  datatype Sender = Sender(userId: int, nickname: string)

  /** One accepted turn: the question and the raw reply. */
  datatype Conversation = Conversation(ask: string, reply: Json)

  /** `UserData` of this package, with its message ids and turn counter. */
  class UserData {
    var sender: Sender
    var firstAskMessageId: Option<int>
    var lastReplyMessageId: int
    var chatbot: Option<SrcDataModel.Chatbot>
    var lastTime: int
    var isWaiting: bool
    var conversationCount: int
    var history: seq<Conversation>

    constructor (sender: Sender, lastTime: int)
      ensures this.sender == sender && this.lastTime == lastTime
      ensures firstAskMessageId == None && lastReplyMessageId == 0 && chatbot == None
      ensures !isWaiting && conversationCount == 0 && history == []
    {
      this.sender := sender;
      this.lastTime := lastTime;
      firstAskMessageId := None;
      lastReplyMessageId := 0;
      chatbot := None;
      isWaiting := false;
      conversationCount := 0;
      history := [];
    }
  }
}
