/** The earliest data model (nonebot_plugin_bing_chat/common/dataModel.py):
    the `deep_get` path navigator, the classifier written as an if-chain on
    top of it, its accessors, and its `Config` defaulting. */
module LegacyDataModel {
  import opened Json
  import opened Errors
  import SrcDataModel
  import DataModel

  // ------------------------------------------------------------------
  // deep_get
  // ------------------------------------------------------------------

  /** One `.`-separated segment of a `deep_get` path: a plain key, or
      `name[i]` (the name may be absent, as in `[i]`). */
  datatype Segment = Plain(key: string) | Indexed(name: string, index: nat)

  /** What one segment does to the value reached so far: the next value, a
      stop with `None`, or an exception that escapes. */
  datatype Move = Next(value: Json) | Stop | Escape(error: Exc)

  /** A plain key turns KeyError and TypeError into `None`; `name[i]` turns
      KeyError and IndexError into `None` and lets TypeError escape. */
  function Visit(d: Json, seg: Segment): (m: Move)
    ensures seg.Plain? ==> !m.Escape?
    ensures m.Escape? ==> m.error == PyTypeError
    ensures seg.Plain? && d.JObj? && seg.key in d.fields ==> m == Next(d.fields[seg.key])
    ensures seg.Indexed? && seg.name == "" && d.JArr? ==>
              m == (if seg.index < |d.items| then Next(d.items[seg.index]) else Stop)
  {
    match seg
    case Plain(k) =>
      (match Subscript(d, Key(k))
       case Hit(x) => Next(x)
       case Miss(_) => Stop)
    case Indexed(name, i) =>
      var named := if name == "" then Hit(d) else Subscript(d, Key(name));
      match named
      case Miss(TypeError) => Escape(PyTypeError)
      case Miss(_) => Stop
      case Hit(x) =>
        match Subscript(x, Index(i))
        case Hit(y) => Next(y)
        case Miss(TypeError) => Escape(PyTypeError)
        case Miss(_) => Stop
  }

  /** `deep_get` as a function: `None` (here `JNull`) at the first stop. */
  function DeepGetSpec(d: Json, path: seq<Segment>): Result<Json>
    decreases |path|
  {
    if path == [] then Ok(d)
    else match Visit(d, path[0])
      case Next(x) => DeepGetSpec(x, path[1..])
      case Stop => Ok(JNull)
      case Escape(e) => Err(e)
  }

  /** `deep_get`: the loop over segments, reassigning the current value. */
  method DeepGet(dictionary: Json, path: seq<Segment>) returns (r: Result<Json>)
    ensures r == DeepGetSpec(dictionary, path)
  {
    var d := dictionary;
    var n := 0;
    while n < |path|
      invariant 0 <= n <= |path|
      invariant DeepGetSpec(dictionary, path) == DeepGetSpec(d, path[n..])
    {
      assert path[n..][1..] == path[n + 1..];
      match Visit(d, path[n]) {
        case Next(x) =>
          d := x;
        case Stop =>
          return Ok(JNull);
        case Escape(e) =>
          return Err(e);
      }
      n := n + 1;
    }
    return Ok(d);
  }

  /** The subscripts a path of plain keys stands for. */
  function Keys(keys: seq<string>): (p: seq<Segment>)
    ensures |p| == |keys| && forall i :: 0 <= i < |keys| ==> p[i] == Plain(keys[i])
  {
    seq(|keys|, i requires 0 <= i < |keys| => Plain(keys[i]))
  }

  function Steps(keys: seq<string>): (p: seq<Step>)
    ensures |p| == |keys| && forall i :: 0 <= i < |keys| ==> p[i] == Key(keys[i])
  {
    seq(|keys|, i requires 0 <= i < |keys| => Key(keys[i]))
  }

  /** Along plain keys `deep_get` never raises: it finds what the chain of
      subscripts finds, and `None` wherever that chain would raise. */
  lemma {:induction false} DeepGetPlainKeys(d: Json, keys: seq<string>)
    ensures DeepGetSpec(d, Keys(keys)) == match Walk(d, Steps(keys)) case Hit(x) => Ok(x) case Miss(_) => Ok(JNull)
    decreases |keys|
  {
    if keys != [] {
      assert Keys(keys)[1..] == Keys(keys[1..]);
      assert Steps(keys)[1..] == Steps(keys[1..]);
      match Subscript(d, Key(keys[0])) {
        case Hit(x) => DeepGetPlainKeys(x, keys[1..]);
        case Miss(_) =>
      }
    }
  }

  /** `name[i]` applied to a list raises TypeError rather than giving `None`,
      unlike a plain key applied to a list. */
  lemma NamedIndexOnListEscapes(items: seq<Json>, name: string, i: nat, key: string)
    requires name != ""
    ensures DeepGetSpec(JArr(items), [Indexed(name, i)]) == Err(PyTypeError)
    ensures DeepGetSpec(JArr(items), [Plain(key)]) == Ok(JNull)
  {
  }

  // ------------------------------------------------------------------
  // Response classification
  // ------------------------------------------------------------------

  const ResultValuePath := Keys(["item", "result", "value"])
  const NumPath := Keys(["item", "throttling", "numUserMessagesInConversation"])
  const MaxPath := Keys(["item", "throttling", "maxNumUserMessagesInConversation"])
  /** `item.messages[1]` followed by `field`. */
  function SecondMessage(field: string): seq<Segment>
  {
    [Plain("item"), Indexed("messages", 1), Plain(field)]
  }

  /** Both counters read, neither `None`, and `num_conver > max_conver`. */
  predicate OverLimit(v: Json)
  {
    var num := DeepGetSpec(v, NumPath);
    var max := DeepGetSpec(v, MaxPath);
    num.Ok? && max.Ok? && num.value != JNull && max.value != JNull
    && SrcDataModel.PyGreater(num.value, max.value) == Some(true)
  }

  /** Both counters read, and either one is `None` or they compare as not
      over the limit. */
  predicate WithinLimit(v: Json)
  {
    var num := DeepGetSpec(v, NumPath);
    var max := DeepGetSpec(v, MaxPath);
    num.Ok? && max.Ok?
    && (num.value == JNull || max.value == JNull || SrcDataModel.PyGreater(num.value, max.value) == Some(false))
  }

  /** What `rawValidator` returns unchanged, stated all at once: a `Success`
      result within the limit, a `None` hidden text and a text that is read
      and not `None`. */
  predicate Acceptable(v: Json)
  {
    && DeepGetSpec(v, ResultValuePath) == Ok(JStr("Success"))
    && WithinLimit(v)
    && DeepGetSpec(v, SecondMessage("hiddenText")) == Ok(JNull)
    && DeepGetSpec(v, SecondMessage("text")).Ok?
    && DeepGetSpec(v, SecondMessage("text")).value != JNull
  }

  /** `rawValidator`: throttled; under `Success` the conversation limit when
      both counters are there, a non-`None` hidden text, a non-`None` text;
      anything else is unknown. */
  function RawValidator(v: Json): (r: Verdict)
    ensures r.Accepted? ==> r.raw == v
    ensures r.Accepted? ==> DeepGetSpec(v, SecondMessage("text")).Ok? && DeepGetSpec(v, SecondMessage("text")).value != JNull
    ensures DeepGetSpec(v, ResultValuePath) == Ok(JStr("Throttled")) ==> r == Rejected(AccountReachLimit)
    ensures DeepGetSpec(v, ResultValuePath) !in {Ok(JStr("Throttled")), Ok(JStr("Success"))} ==>
              r == Rejected(UnknownResponse)
    ensures r.Rejected? && r.error.ConversationReachLimit? ==>
              r.error.num != JNull && r.error.max != JNull
              && SrcDataModel.PyGreater(r.error.num, r.error.max) == Some(true)
    ensures DeepGetSpec(v, ResultValuePath) == Ok(JStr("Success")) && OverLimit(v) ==>
              r == Rejected(ConversationReachLimit(DeepGetSpec(v, NumPath).value, DeepGetSpec(v, MaxPath).value))
    ensures DeepGetSpec(v, ResultValuePath) == Ok(JStr("Success")) && WithinLimit(v)
            && DeepGetSpec(v, SecondMessage("hiddenText")).Ok? && DeepGetSpec(v, SecondMessage("hiddenText")).value != JNull ==>
              r == Rejected(Hidden(DeepGetSpec(v, SecondMessage("hiddenText")).value))
  {
    var resultValue := DeepGetSpec(v, ResultValuePath);
    if resultValue == Ok(JStr("Throttled")) then Rejected(AccountReachLimit)
    else if resultValue != Ok(JStr("Success")) then Rejected(UnknownResponse)
    else
      var num := DeepGetSpec(v, NumPath);
      var max := DeepGetSpec(v, MaxPath);
      if num.Err? || max.Err? then Rejected(ValidationError)
      else if num.value != JNull && max.value != JNull && SrcDataModel.PyGreater(num.value, max.value).None? then
        Rejected(ValidationError)
      else if num.value != JNull && max.value != JNull && SrcDataModel.PyGreater(num.value, max.value) == Some(true) then
        Rejected(ConversationReachLimit(num.value, max.value))
      else
        var hidden := DeepGetSpec(v, SecondMessage("hiddenText"));
        if hidden.Err? then Rejected(ValidationError)
        else if hidden.value != JNull then Rejected(Hidden(hidden.value))
        else
          var text := DeepGetSpec(v, SecondMessage("text"));
          if text.Err? then Rejected(ValidationError)
          else if text.value != JNull then Accepted(v)
          else Rejected(UnknownResponse)
  }

  /** The chain accepts exactly the acceptable replies. */
  lemma {:induction false} AcceptsIff(v: Json)
    ensures RawValidator(v).Accepted? <==> Acceptable(v)
  {
    var num := DeepGetSpec(v, NumPath);
    var max := DeepGetSpec(v, MaxPath);
    if num.Ok? && max.Ok? && num.value != JNull && max.value != JNull {
      match SrcDataModel.PyGreater(num.value, max.value)
      case None =>
      case Some(over) =>
    }
  }

  /** Validating `BingChatResponse(raw=v)`: the `Dict[str, Any]` field's
      coercion, then `rawValidator` on the coerced mapping. */
  function Classify(v: Json): (r: Verdict)
    ensures AsDict(v, true).None? ==> r == Rejected(ValidationError)
    ensures v.JObj? ==> r == RawValidator(v)
    ensures r.Accepted? ==> r.raw.JObj? && AsDict(v, true) == Some(r.raw)
  {
    match AsDict(v, true)
    case None => Rejected(ValidationError)
    case Some(d) => RawValidator(d)
  }

  /** A `None` key fails the `str` key type here, where the later `dict`
      fields accept it; an empty list is a mapping without `item`. */
  lemma NullKeyRefused()
    ensures Classify(JArr([JArr([JNull, JStr("x")])])) == Rejected(ValidationError)
    ensures DataModel.Classify(JArr([JArr([JNull, JStr("x")])])) == Rejected(UnknownResponse)
    ensures Classify(JArr([])) == Rejected(UnknownResponse)
  {
    assert [JArr([JNull, JStr("x")])][..0] == [];
  }

  /** The counter paths are plain keys, so reading them never raises. */
  lemma CountersNeverRaise(v: Json)
    ensures DeepGetSpec(v, NumPath).Ok? && DeepGetSpec(v, MaxPath).Ok? && DeepGetSpec(v, ResultValuePath).Ok?
  {
    DeepGetPlainKeys(v, ["item", "throttling", "numUserMessagesInConversation"]);
    DeepGetPlainKeys(v, ["item", "throttling", "maxNumUserMessagesInConversation"]);
    DeepGetPlainKeys(v, ["item", "result", "value"]);
  }

  /** A `Success` reply whose text is JSON `null` is not accepted: `None`
      and a missing key look the same to `deep_get`. */
  lemma NullTextIsUnknown()
    ensures Classify(JObj(map["item" := JObj(map[
              "result" := JObj(map["value" := JStr("Success")]),
              "messages" := JArr([JNull, JObj(map["text" := JNull])])])]))
            == Rejected(UnknownResponse)
  {
    var v := JObj(map["item" := JObj(map[
               "result" := JObj(map["value" := JStr("Success")]),
               "messages" := JArr([JNull, JObj(map["text" := JNull])])])]);
    assert DeepGetSpec(v, ResultValuePath) == Ok(JStr("Success"));
    assert DeepGetSpec(v, NumPath) == Ok(JNull);
    assert DeepGetSpec(v, SecondMessage("hiddenText")) == Ok(JNull);
    assert DeepGetSpec(v, SecondMessage("text")) == Ok(JNull);
  }

  /** A `Success` reply with a third message after the answer. */
  function ThreeMessages(): Json
  {
    JObj(map["item" := JObj(map[
      "result" := JObj(map["value" := JStr("Success")]),
      "messages" := JArr([JNull, JObj(map["text" := JStr("a")]), JNull])])])
  }

  lemma ThreeMessagesAcceptedHere()
    ensures Classify(ThreeMessages()).Accepted?
  {
  }

  lemma ThreeMessagesRejectedElsewhere()
    ensures SrcDataModel.Classify(ThreeMessages()) == Rejected(UnknownResponse)
    ensures DataModel.Classify(ThreeMessages()) == Rejected(UnknownResponse)
  {
    assert SrcDataModel.MessagePair(ThreeMessages()) == None;
  }

  /** There is no length check on `messages`: a third message does not stop
      acceptance, where both pattern-matching classifiers reject it. */
  lemma ThreeMessagesAccepted()
    ensures Classify(ThreeMessages()).Accepted?
    ensures SrcDataModel.Classify(ThreeMessages()) == Rejected(UnknownResponse)
    ensures DataModel.Classify(ThreeMessages()) == Rejected(UnknownResponse)
  {
    ThreeMessagesAcceptedHere();
    ThreeMessagesRejectedElsewhere();
  }

  // ------------------------------------------------------------------
  // Content accessors
  // ------------------------------------------------------------------

  /** A `deep_get` result that must be there: `None` becomes the response
      exception. */
  function Required(x: Result<Json>): (r: Result<Json>)
    ensures x.Ok? && x.value != JNull ==> r == x
    ensures x == Ok(JNull) ==> r == Err(InvalidResponseValue)
  {
    match x
    case Err(e) => Err(e)
    case Ok(JNull) => Err(InvalidResponseValue)
    case Ok(y) => Ok(y)
  }

  /** Citation stripping of a found text; `re.sub` on a non-string raises. */
  function Stripped(x: Result<Json>): Result<string>
  {
    match Required(x)
    case Err(e) => Err(e)
    case Ok(JStr(s)) => Ok(SrcDataModel.RemoveQuoteStr(s))
    case Ok(_) => Err(PyTypeError)
  }

  /** `content_simple`. */
  function ContentSimple(raw: Json): (r: Result<string>)
    ensures DeepGetSpec(raw, SecondMessage("text")) == Ok(JNull) ==> r == Err(InvalidResponseValue)
    ensures var t := DeepGetSpec(raw, SecondMessage("text"));
            t.Ok? && t.value.JStr? ==> r == Ok(SrcDataModel.RemoveQuoteStr(t.value.s))
  {
    Stripped(DeepGetSpec(raw, SecondMessage("text")))
  }

  const CardBodyPath: seq<Segment> := [Plain("item"), Indexed("messages", 1), Indexed("adaptiveCards", 0), Plain("body")]
  /** `item.messages[1].adaptiveCards[0].body[0].text`, where `body[0]` is
      one named-index segment. */
  const ReferenceTextPath: seq<Segment> :=
    [Plain("item"), Indexed("messages", 1), Indexed("adaptiveCards", 0), Indexed("body", 0), Plain("text")]

  /** `content_with_reference`: the first body element's text, stripped. */
  function ContentWithReference(raw: Json): (r: Result<string>)
    ensures var t := DeepGetSpec(raw, ReferenceTextPath);
            (t == Ok(JNull) ==> r == Err(InvalidResponseValue))
            && (t.Ok? && t.value.JStr? ==> r == Ok(SrcDataModel.RemoveQuoteStr(t.value.s)))
            && (t.Err? ==> r == Err(t.error))
  {
    Stripped(DeepGetSpec(raw, ReferenceTextPath))
  }

  /** A card that is not a mapping makes `body[0]` raise TypeError, which
      escapes `content_with_reference`. */
  lemma NullCardEscapes()
    ensures ContentWithReference(JObj(map["item" := JObj(map[
              "messages" := JArr([JNull, JObj(map["adaptiveCards" := JArr([JNull])])])])]))
            == Err(PyTypeError)
  {
  }

  /** `content_detail` is a stub. */
  function ContentDetail(raw: Json): (r: string)
    ensures r == ""
  {
    ""
  }

  /** `adaptive_cards`. */
  function AdaptiveCards(raw: Json): (r: Result<Json>)
    ensures r.Ok? ==> r.value != JNull && DeepGetSpec(raw, CardBodyPath) == Ok(r.value)
    ensures DeepGetSpec(raw, CardBodyPath) == Ok(JNull) ==> r == Err(InvalidResponseValue)
  {
    Required(DeepGetSpec(raw, CardBodyPath))
  }

  /** On a reply this classifier accepts, the simple content is the
      stripped text whenever that text is a string. */
  lemma AcceptedHasSimpleContent(v: Json)
    requires Classify(v).Accepted?
    requires DeepGetSpec(Classify(v).raw, SecondMessage("text")).value.JStr?
    ensures ContentSimple(Classify(v).raw) == Ok(SrcDataModel.RemoveQuoteStr(DeepGetSpec(Classify(v).raw, SecondMessage("text")).value.s))
  {
  }

  // ------------------------------------------------------------------
  // Configuration
  // ------------------------------------------------------------------

  datatype Config = Config(
    commandStart: set<string>,
    commandChat: set<string>,
    commandNewChat: set<string>,
    commandHistoryChat: set<string>)

  /** A `Set[str]` field with no validator of its own: a list of strings;
      a bare string or an object is refused. */
  function SetField(v: Json): Result<set<string>>
  {
    match v
    case JArr(xs) => (match DataModel.StrSet(xs) case Some(s) => Ok(s) case None => Err(ValidationError))
    case _ => Err(ValidationError)
  }

  function Command(data: map<string, Json>, key: string, default: set<string>): Result<set<string>>
  {
    if key in data then DataModel.CommandValidator(key, data[key]) else Ok(default)
  }

  /** `Config.__init__`: `bingchat_command_start` defaults to the
      framework's `command_start`, read before validation (a KeyError when
      neither is given); then the command fields are validated. */
  method ConfigInit(data: map<string, Json>) returns (r: Result<Config>)
    ensures "bingchat_command_start" !in data && "command_start" !in data ==> r == Err(PyKeyError("command_start"))
    ensures "bingchat_command_start" !in data && "command_start" in data && r.Ok? ==>
              SetField(data["command_start"]) == Ok(r.value.commandStart)
    ensures "bingchat_command_start" in data && r.Ok? ==>
              SetField(data["bingchat_command_start"]) == Ok(r.value.commandStart)
    ensures r.Ok? ==> Command(data, "bingchat_command_chat", {"chat"}) == Ok(r.value.commandChat)
    ensures r.Ok? ==> Command(data, "bingchat_command_new_chat", {"chat-new", "刷新对话"}) == Ok(r.value.commandNewChat)
    ensures r.Ok? ==> Command(data, "bingchat_command_history_chat", {"chat-history"}) == Ok(r.value.commandHistoryChat)
    ensures "bingchat_command_chat" in data && !DataModel.Truthy(data["bingchat_command_chat"]) ==> r.Err?
    ensures "bingchat_command_new_chat" in data && !DataModel.Truthy(data["bingchat_command_new_chat"]) ==> r.Err?
    ensures "bingchat_command_history_chat" in data && !DataModel.Truthy(data["bingchat_command_history_chat"]) ==> r.Err?
  {
    var d := data;
    if "bingchat_command_start" !in d {
      if "command_start" !in d {
        return Err(PyKeyError("command_start"));
      }
      d := d["bingchat_command_start" := d["command_start"]];
    }
    var start := SetField(d["bingchat_command_start"]);
    var chat := Command(d, "bingchat_command_chat", {"chat"});
    var newChat := Command(d, "bingchat_command_new_chat", {"chat-new", "刷新对话"});
    var history := Command(d, "bingchat_command_history_chat", {"chat-history"});
    if start.Err? || chat.Err? || newChat.Err? || history.Err? {
      return Err(ValidationError);
    }
    return Ok(Config(start.value, chat.value, newChat.value, history.value));
  }
}
