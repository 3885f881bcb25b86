/** The data model of the current plugin (src/plugins/.../common/data_model.py):
    citation stripping, the configuration validators, the response
    classifier with its content accessors, and the per-user session record. */
module SrcDataModel {
  import opened Json
  import opened Text
  import opened Errors

  // ------------------------------------------------------------------
  // Citation markers `[^n^]`
  // ------------------------------------------------------------------

  predicate IsDigit(c: char) { '0' <= c <= '9' }

  /** The length of the run of digits `s` starts with. */
  function DigitRun(s: string): (n: nat)
    ensures n <= |s|
    ensures forall i :: 0 <= i < n ==> IsDigit(s[i])
    ensures n < |s| ==> !IsDigit(s[n])
    decreases |s|
  {
    if s != [] && IsDigit(s[0]) then 1 + DigitRun(s[1..]) else 0
  }

  /** The length of the citation marker `[^` digits `^]` that `s` starts
      with, or 0 when it starts with none. */
  function MarkerLength(s: string): (n: nat)
    ensures n == 0 || 5 <= n <= |s|
  {
    if |s| >= 2 && s[0] == '[' && s[1] == '^' then
      var d := DigitRun(s[2..]);
      if d >= 1 && d + 4 <= |s| && s[d + 2] == '^' && s[d + 3] == ']' then d + 4 else 0
    else 0
  }

  /** The citation marker for a run of digits. */
  function Marker(digits: string): string
  {
    "[^" + digits + "^]"
  }

  predicate AllDigits(s: string)
  {
    forall i :: 0 <= i < |s| ==> IsDigit(s[i])
  }

  /** `remove_quote_str`: one left-to-right pass that deletes every citation
      marker and keeps every other character in order. */
  function RemoveQuoteStr(s: string): (r: string)
    ensures |r| <= |s|
    decreases |s|
  {
    if s == [] then []
    else if MarkerLength(s) > 0 then RemoveQuoteStr(s[MarkerLength(s)..])
    else [s[0]] + RemoveQuoteStr(s[1..])
  }

  lemma {:induction false} DigitRunOf(d: string, t: string)
    requires AllDigits(d)
    requires t != [] && !IsDigit(t[0])
    ensures DigitRun(d + t) == |d|
    decreases |d|
  {
    if d != [] {
      assert (d + t)[1..] == d[1..] + t;
      DigitRunOf(d[1..], t);
    } else {
      assert d + t == t;
    }
  }

  /** A marker at the front is recognised with its full length. */
  lemma MarkerLengthOf(digits: string, rest: string)
    requires digits != [] && AllDigits(digits)
    ensures MarkerLength(Marker(digits) + rest) == |digits| + 4
  {
    var s := Marker(digits) + rest;
    assert s[2..] == digits + ("^]" + rest);
    DigitRunOf(digits, "^]" + rest);
    assert s[|digits| + 2] == '^' && s[|digits| + 3] == ']';
  }

  /** A marker is deleted and what follows it is treated on its own. */
  lemma RemoveDropsMarker(digits: string, rest: string)
    requires digits != [] && AllDigits(digits)
    ensures RemoveQuoteStr(Marker(digits) + rest) == RemoveQuoteStr(rest)
  {
    MarkerLengthOf(digits, rest);
    assert (Marker(digits) + rest)[|digits| + 4..] == rest;
  }

  /** Text without `[` is kept as it is, and what follows it is treated on
      its own. */
  lemma {:induction false} RemoveKeepsPlain(a: string, rest: string)
    requires '[' !in a
    ensures RemoveQuoteStr(a + rest) == a + RemoveQuoteStr(rest)
    decreases |a|
  {
    if a != [] {
      var s := a + rest;
      assert s[0] == a[0] && s[1..] == a[1..] + rest;
      assert MarkerLength(s) == 0;
      RemoveKeepsPlain(a[1..], rest);
      assert [a[0]] + (a[1..] + RemoveQuoteStr(rest)) == a + RemoveQuoteStr(rest);
    } else {
      assert a + rest == rest;
    }
  }

  /** No citation marker starts anywhere in `s`. */
  predicate NoMarker(s: string)
  {
    forall i :: 0 <= i < |s| ==> MarkerLength(s[i..]) == 0
  }

  /** A marker anywhere in `s` is always deleted: markers cannot overlap, so
      the pass never skips over the start of one. */
  lemma {:induction false} MarkerShortens(s: string, i: nat)
    requires i < |s| && MarkerLength(s[i..]) > 0
    ensures |RemoveQuoteStr(s)| < |s|
    decreases i
  {
    if MarkerLength(s) == 0 {
      assert i != 0;
      assert s[1..][i - 1..] == s[i..];
      MarkerShortens(s[1..], i - 1);
    }
  }

  lemma {:induction false} NoMarkerKept(s: string)
    requires NoMarker(s)
    ensures RemoveQuoteStr(s) == s
    decreases |s|
  {
    if s != [] {
      assert s[0..] == s;
      forall i | 0 <= i < |s[1..]| ensures MarkerLength(s[1..][i..]) == 0 {
        assert s[1..][i..] == s[i + 1..];
      }
      NoMarkerKept(s[1..]);
    }
  }

  /** The pass changes a string exactly when a marker occurs in it. */
  lemma RemoveIsIdentityIff(s: string)
    ensures RemoveQuoteStr(s) == s <==> NoMarker(s)
  {
    if NoMarker(s) {
      NoMarkerKept(s);
    } else {
      var i :| 0 <= i < |s| && MarkerLength(s[i..]) > 0;
      MarkerShortens(s, i);
    }
  }

  /** Two markers, each after a stretch of plain text, both go and the
      plain text stays. */
  lemma RemoveTwoMarkers(a: string, d1: string, b: string, d2: string)
    requires '[' !in a && '[' !in b
    requires d1 != [] && AllDigits(d1) && d2 != [] && AllDigits(d2)
    ensures RemoveQuoteStr(a + (Marker(d1) + (b + Marker(d2)))) == a + b
  {
    assert RemoveQuoteStr(Marker(d2)) == [] by {
      RemoveDropsMarker(d2, []);
      assert Marker(d2) + [] == Marker(d2);
    }
    assert RemoveQuoteStr(b + Marker(d2)) == b by {
      RemoveKeepsPlain(b, Marker(d2));
      assert b + [] == b;
    }
    RemoveDropsMarker(d1, b + Marker(d2));
    RemoveKeepsPlain(a, Marker(d1) + (b + Marker(d2)));
  }

  /** Stripping `Hello [^d1^] world [^d2^]` leaves `Hello  world `, with
      the spaces around each marker kept. */
  lemma RemoveExample(d1: string, d2: string)
    requires d1 != [] && AllDigits(d1) && d2 != [] && AllDigits(d2)
    ensures RemoveQuoteStr("Hello " + Marker(d1) + " world " + Marker(d2)) == "Hello  world "
  {
    RemoveTwoMarkers("Hello ", d1, " world ", d2);
    assert "Hello " + Marker(d1) + " world " + Marker(d2) == "Hello " + (Marker(d1) + (" world " + Marker(d2)));
    assert "Hello " + " world " == "Hello  world ";
  }

  /** After the opening `[`, the inner marker goes and the rest stays. */
  lemma InnerMarkerDropped(d: string, e: string)
    requires d != [] && AllDigits(d) && e != [] && AllDigits(e)
    ensures RemoveQuoteStr("^" + (Marker(d) + (e + "^]"))) == "^" + e + "^]"
  {
    var closing := e + "^]";
    assert '[' !in closing by {
      forall j | 0 <= j < |closing| ensures closing[j] != '[' {
        if j < |e| { assert IsDigit(e[j]); }
      }
    }
    RemoveKeepsPlain("^", Marker(d) + closing);
    RemoveDropsMarker(d, closing);
    RemoveKeepsPlain(closing, "");
    assert closing + "" == closing;
  }

  /** The outer brackets do not start a marker: a `[` follows the `[^`. */
  lemma OuterNotMarker(d: string, e: string)
    ensures MarkerLength("[" + ("^" + (Marker(d) + (e + "^]")))) == 0
  {
    var s := "[" + ("^" + (Marker(d) + (e + "^]")));
    assert s[2..][0] == '[';
  }

  /** How the nested string splits around its first character, and what
      the inner pass leaves once the outer `[` is put back. */
  lemma NestedShape(d: string, e: string)
    ensures "[^" + Marker(d) + e + "^]" == "[" + ("^" + (Marker(d) + (e + "^]")))
    ensures "[" + ("^" + e + "^]") == Marker(e)
  {
  }

  /** A character that starts no marker is kept. */
  lemma KeepsFirstOf(c: char, rest: string)
    requires MarkerLength([c] + rest) == 0
    ensures RemoveQuoteStr([c] + rest) == [c] + RemoveQuoteStr(rest)
  {
    assert ([c] + rest)[1..] == rest;
  }

  /** One pass over a marker nested in brackets leaves the outer marker. */
  lemma NestedFirstPass(d: string, e: string)
    requires d != [] && AllDigits(d) && e != [] && AllDigits(e)
    ensures RemoveQuoteStr("[^" + Marker(d) + e + "^]") == Marker(e)
  {
    var inner := "^" + (Marker(d) + (e + "^]"));
    NestedShape(d, e);
    OuterNotMarker(d, e);
    KeepsFirstOf('[', inner);
    InnerMarkerDropped(d, e);
  }

  /** The pass is not idempotent: deleting an inner marker can close up an
      outer one, which a second pass then deletes. */
  lemma RemoveNotIdempotent(d: string, e: string)
    requires d != [] && AllDigits(d) && e != [] && AllDigits(e)
    ensures RemoveQuoteStr("[^" + Marker(d) + e + "^]") == Marker(e)
    ensures RemoveQuoteStr(RemoveQuoteStr("[^" + Marker(d) + e + "^]")) == ""
  {
    NestedFirstPass(d, e);
    RemoveDropsMarker(e, "");
    assert Marker(e) + "" == Marker(e);
  }

  // ------------------------------------------------------------------
  // Configuration
  // ------------------------------------------------------------------

  datatype FilterMode = Whitelist | Blacklist

  /** A raw setting before validation: a bare string or a list of strings. */
  datatype Setting = SStr(s: string) | SList(items: seq<string>)

  /** Python truthiness of a raw setting. */
  predicate Truthy(v: Setting)
  {
    match v
    case SStr(s) => s != ""
    case SList(xs) => xs != []
  }

  /** One validated `bingchat_display_content_types` entry: `text` or
      `image`, and the content types shown in it, in order. */
  datatype DisplayContentType = DisplayContentType(displayType: string, contentTypes: seq<string>)

  const AllAdapters: set<string> := {"console", "kaiheila", "onebotv11", "onebotv12", "qqguild", "telegram"}
  const ContentTypes: set<string> := {"answer", "reference", "suggested-question", "num-max-conversation"}
  const DisplayTypes: set<string> := {"text", "image"}

  /** The settings the core reads. */
  datatype PluginConfig = PluginConfig(
    superusers: set<int>,
    commandStart: set<string>,
    adapters: set<string>,
    shareChat: bool,
    commandChat: set<string>,
    commandNewChat: set<string>,
    commandHistoryChat: set<string>,
    displayIsWaiting: bool,
    displayInForward: bool,
    displayContentTypes: seq<DisplayContentType>,
    log: bool,
    autoSwitchCookies: bool,
    autoRefreshConversation: bool,
    groupFilterMode: FilterMode,
    groupFilterWhitelist: set<int>,
    groupFilterBlacklist: set<int>)

  /** The configuration when only the framework's own settings are given. */
  function DefaultConfig(superusers: set<int>, commandStart: set<string>): (c: PluginConfig)
    ensures c.adapters == {"onebotv11"} && c.groupFilterMode == Blacklist
    ensures c.commandChat == {"chat"} && c.commandNewChat == {"chat-new", "刷新对话"}
    ensures c.commandHistoryChat == {"chat-history"}
    ensures c.displayContentTypes == [DisplayContentType("text", ["num-max-conversation", "answer", "suggested-question"])]
    ensures !c.autoSwitchCookies && c.autoRefreshConversation && c.displayIsWaiting && !c.displayInForward
  {
    PluginConfig(superusers, commandStart, {"onebotv11"}, false, {"chat"}, {"chat-new", "刷新对话"},
                 {"chat-history"}, true, false,
                 [DisplayContentType("text", ["num-max-conversation", "answer", "suggested-question"])],
                 true, false, true, Blacklist, {}, {})
  }

  /** `bingchat_adapters_validator`. */
  function AdaptersValidator(v: Setting): (r: Result<set<string>>)
    ensures r.Err? <==> !Truthy(v)
    ensures v == SStr("all") ==> r == Ok(AllAdapters)
    ensures v.SStr? && v.s != "" && v.s != "all" ==> r == Ok({v.s})
    ensures v.SList? && v.items != [] ==> r == Ok(set x | x in v.items)
  {
    if !Truthy(v) then Err(PyValueError("bingchat_adapters不能为空"))
    else if v == SStr("all") then Ok(AllAdapters)
    else match v
      case SStr(s) => Ok({s})
      case SList(xs) => Ok(set x | x in xs)
  }

  /** The validators of the three command settings: empty is refused, a bare
      string becomes a one-element set, a list becomes the set of its items. */
  function CommandValidator(field: string, v: Setting): (r: Result<set<string>>)
    ensures r.Err? <==> !Truthy(v)
    ensures v.SStr? && v.s != "" ==> r == Ok({v.s})
    ensures v.SList? && v.items != [] ==> r == Ok(set x | x in v.items)
  {
    if !Truthy(v) then Err(PyValueError(field + "不能为空"))
    else match v
      case SStr(s) => Ok({s})
      case SList(xs) => Ok(set x | x in xs)
  }

  /** `list(v)` of a raw setting: a bare string iterates as its characters. */
  function Entries(v: Setting): (r: seq<string>)
    ensures v.SList? ==> r == v.items
    ensures v.SStr? ==> |r| == |v.s| && forall i :: 0 <= i < |r| ==> r[i] == [v.s[i]]
  {
    match v
    case SStr(s) => seq(|s|, i requires 0 <= i < |s| => [s[i]])
    case SList(xs) => xs
  }

  /** The index of the first item of `items` that is not in `allowed`. */
  function FirstNotIn(items: seq<string>, allowed: set<string>): (k: nat)
    ensures k <= |items|
    ensures forall i :: 0 <= i < k ==> items[i] in allowed
    ensures k < |items| ==> items[k] !in allowed
    decreases |items|
  {
    if items == [] || items[0] !in allowed then 0 else 1 + FirstNotIn(items[1..], allowed)
  }

  /** One display entry split on `.` and `&`: its head must be a display type
      and every later piece a content type; the first offender is named. */
  function ParseDisplayEntry(entry: string): (r: Result<DisplayContentType>)
  {
    var pieces := SplitAny(entry, {'.', '&'});
    if pieces[0] !in DisplayTypes then Err(PyValueError("无效的显示类型: " + pieces[0]))
    else
      var k := FirstNotIn(pieces[1..], ContentTypes);
      if k < |pieces[1..]| then Err(PyValueError("无效的响应类型: " + pieces[1..][k]))
      else Ok(DisplayContentType(pieces[0], pieces[1..]))
  }

  /** A parsed entry keeps the pieces of the text in order and holds only
      known names. */
  lemma ParseDisplayEntryOk(entry: string)
    requires ParseDisplayEntry(entry).Ok?
    ensures var d := ParseDisplayEntry(entry).value;
            d.displayType in DisplayTypes
            && (forall i :: 0 <= i < |d.contentTypes| ==> d.contentTypes[i] in ContentTypes)
            && [d.displayType] + d.contentTypes == SplitAny(entry, {'.', '&'})
  {
    var pieces := SplitAny(entry, {'.', '&'});
    assert [pieces[0]] + pieces[1..] == pieces;
  }

  /** An entry written out as a display type and content types joined by
      `&` (or `.`). */
  function RenderDisplayEntry(d: DisplayContentType, sep: char): string
  {
    Join([d.displayType] + d.contentTypes, [sep])
  }

  /** Parsing undoes writing out: an entry of known names, written with
      either separator, parses back to itself. */
  lemma ParseRenderDisplayEntry(d: DisplayContentType, sep: char)
    requires sep in {'.', '&'}
    requires d.displayType in DisplayTypes
    requires forall i :: 0 <= i < |d.contentTypes| ==> d.contentTypes[i] in ContentTypes
    ensures ParseDisplayEntry(RenderDisplayEntry(d, sep)) == Ok(d)
  {
    var parts := [d.displayType] + d.contentTypes;
    forall i, j | 0 <= i < |parts| && 0 <= j < |parts[i]| ensures parts[i][j] !in {'.', '&'} {
      if i > 0 { assert parts[i] == d.contentTypes[i - 1]; }
    }
    SplitJoin(parts, sep, {'.', '&'});
    assert parts[1..] == d.contentTypes;
  }

  /** `bingchat_display_content_types_validator`: refuses an empty setting,
      then parses the entries in order and stops at the first bad one. */
  method DisplayContentTypesValidator(v: Setting) returns (r: Result<seq<DisplayContentType>>)
    ensures !Truthy(v) ==> r.Err?
    ensures r.Ok? <==> Truthy(v) && forall i :: 0 <= i < |Entries(v)| ==> ParseDisplayEntry(Entries(v)[i]).Ok?
    ensures r.Ok? ==> |r.value| == |Entries(v)|
                      && forall i :: 0 <= i < |r.value| ==> Ok(r.value[i]) == ParseDisplayEntry(Entries(v)[i])
    ensures r.Err? && Truthy(v) ==>
              exists k :: 0 <= k < |Entries(v)| && ParseDisplayEntry(Entries(v)[k]) == Err(r.error)
                          && forall i :: 0 <= i < k ==> ParseDisplayEntry(Entries(v)[i]).Ok?
  {
    if !Truthy(v) {
      return Err(PyValueError("bingchat_display_content_types不能为空"));
    }
    var entries := Entries(v);
    var types: seq<DisplayContentType> := [];
    var n := 0;
    while n < |entries|
      invariant 0 <= n <= |entries|
      invariant |types| == n
      invariant forall i :: 0 <= i < n ==> Ok(types[i]) == ParseDisplayEntry(entries[i])
    {
      var parsed := ParseDisplayEntry(entries[n]);
      if parsed.Err? {
        return Err(parsed.error);
      }
      types := types + [parsed.value];
      n := n + 1;
    }
    return Ok(types);
  }

  // ------------------------------------------------------------------
  // Response classification
  // ------------------------------------------------------------------

  /** The value a nest of mapping patterns `{k0: {k1: ... }}` binds. */
  function Dig(v: Json, keys: seq<string>): (r: Option<Json>)
    decreases |keys|
  {
    if keys == [] then Some(v)
    else match Field(v, keys[0])
      case None => None
      case Some(w) => Dig(w, keys[1..])
  }

  /** `item.result.value`. */
  function ResultValue(v: Json): Option<Json>
  {
    Dig(v, ["item", "result", "value"])
  }

  /** The two counters under `item.throttling`, when both are present. */
  function LimitCounters(v: Json): (r: Option<(Json, Json)>)
  {
    match Dig(v, ["item", "throttling"])
    case None => None
    case Some(t) =>
      match (Field(t, "numUserMessagesInConversation"), Field(t, "maxNumUserMessagesInConversation"))
      case (Some(n), Some(m)) => Some((n, m))
      case _ => None
  }

  /** `item.messages`, when it is a list of exactly two elements (a sequence
      pattern with two items matches nothing else). */
  function MessagePair(v: Json): (r: Option<(Json, Json)>)
  {
    match Dig(v, ["item", "messages"])
    case Some(JArr(xs)) => if |xs| == 2 then Some((xs[0], xs[1])) else None
    case _ => None
  }

  /** The number a JSON value stands for in a comparison (`bool` is an `int`). */
  function Numeric(x: Json): Option<int>
  {
    match x
    case JNum(n) => Some(n)
    case JBool(b) => Some(if b then 1 else 0)
    case _ => None
  }

  /** Python's `>` on strings: code-point order, a proper prefix first. */
  function StrGreater(a: string, b: string): bool
    decreases |a|
  {
    if a == [] then false
    else if b == [] then true
    else if a[0] != b[0] then a[0] > b[0]
    else StrGreater(a[1..], b[1..])
  }

  /** Python's `==` on two JSON values: the datatype's equality, except
      that a boolean equals the number it stands for, also inside lists and
      objects. */
  predicate PyEq(a: Json, b: Json)
    decreases a
  {
    match (a, b)
    case (JArr(xs), JArr(ys)) => |xs| == |ys| && forall i :: 0 <= i < |xs| ==> PyEq(xs[i], ys[i])
    case (JObj(m), JObj(n)) => m.Keys == n.Keys && forall k :: k in m ==> PyEq(m[k], n[k])
    case _ => if Numeric(a).Some? && Numeric(b).Some? then Numeric(a) == Numeric(b) else a == b
  }

  /** Every value equals itself. */
  lemma {:induction false} PyEqReflexive(a: Json)
    ensures PyEq(a, a)
    decreases a
  {
    match a
    case JArr(xs) =>
      forall i | 0 <= i < |xs| ensures PyEq(xs[i], xs[i]) { PyEqReflexive(xs[i]); }
    case JObj(m) =>
      forall k | k in m ensures PyEq(m[k], m[k]) { PyEqReflexive(m[k]); }
    case _ =>
  }

  /** The first position where two lists hold unequal items, within the
      shorter one. */
  function FirstDifference(xs: seq<Json>, ys: seq<Json>): (r: Option<nat>)
    ensures r.Some? ==> r.value < |xs| && r.value < |ys| && !PyEq(xs[r.value], ys[r.value])
    ensures r.Some? ==> forall j :: 0 <= j < r.value ==> PyEq(xs[j], ys[j])
    ensures r.None? ==> forall j :: 0 <= j < |xs| && j < |ys| ==> PyEq(xs[j], ys[j])
    decreases |xs|
  {
    if xs == [] || ys == [] then None
    else if !PyEq(xs[0], ys[0]) then Some(0)
    else match FirstDifference(xs[1..], ys[1..])
      case None => None
      case Some(i) => Some(i + 1)
  }

  /** Python's `a > b` on two JSON values: None when it raises TypeError.
      Numbers (booleans among them) and strings compare as usual; lists
      compare at their first unequal items, or by length when one is a
      prefix of the other; anything else is refused. */
  function PyGreater(a: Json, b: Json): (r: Option<bool>)
    ensures a.JNum? && b.JNum? ==> r == Some(a.n > b.n)
    ensures a.JStr? && b.JStr? ==> r == Some(StrGreater(a.s, b.s))
    ensures r.None? ==> !(a.JNum? && b.JNum?) && !(a.JStr? && b.JStr?)
    ensures (a.JNull? || a.JObj? || b.JNull? || b.JObj?) ==> r.None?
    decreases a
  {
    if Numeric(a).Some? && Numeric(b).Some? then Some(Numeric(a).value > Numeric(b).value)
    else if a.JStr? && b.JStr? then Some(StrGreater(a.s, b.s))
    else if a.JArr? && b.JArr? then
      match FirstDifference(a.items, b.items)
      case None => Some(|a.items| > |b.items|)
      case Some(i) => PyGreater(a.items[i], b.items[i])
    else None
  }

  /** A list is greater than its proper prefix, and not the other way round. */
  lemma ListGreaterThanPrefix(xs: seq<Json>, y: Json)
    ensures PyGreater(JArr(xs + [y]), JArr(xs)) == Some(true)
    ensures PyGreater(JArr(xs), JArr(xs + [y])) == Some(false)
  {
    forall j | 0 <= j < |xs| ensures PyEq((xs + [y])[j], xs[j]) && PyEq(xs[j], (xs + [y])[j]) {
      PyEqReflexive(xs[j]);
    }
    NoDifference(xs + [y], xs);
    NoDifference(xs, xs + [y]);
  }

  /** Lists equal item by item over the shorter one have no first difference. */
  lemma NoDifference(xs: seq<Json>, ys: seq<Json>)
    requires forall j :: 0 <= j < |xs| && j < |ys| ==> PyEq(xs[j], ys[j])
    ensures FirstDifference(xs, ys).None?
  {
  }

  const Throttled := JStr("Throttled")
  const InvalidSessionValue := JStr("InvalidSession")
  const SuccessValue := JStr("Success")

  /** The limit case does not match: the counters are not both present, or
      they compare as not over the limit. */
  predicate WithinLimit(v: Json)
  {
    LimitCounters(v).None? || PyGreater(LimitCounters(v).value.0, LimitCounters(v).value.1) == Some(false)
  }

  /** The first-match chain of the two-message cases. */
  function MessageCases(v: Json): (r: Verdict)
  {
    match MessagePair(v)
    case None => Rejected(UnknownResponse)
    case Some((first, second)) =>
      if Field(first, "offense") == Some(JStr("Offensive")) then Rejected(Offensive)
      else if Field(second, "hiddenText").Some? then Rejected(Hidden(Field(second, "hiddenText").value))
      else if Field(second, "text").Some? then Accepted(v)
      else Rejected(UnknownResponse)
  }

  /** `raw_validator`: the ordered chain throttled, invalid session,
      conversation limit, offensive, hidden text, accepted, unknown. A
      TypeError from comparing the counters leaves the validator as a
      ValidationError. */
  function RawValidator(v: Json): (r: Verdict)
    ensures r.Accepted? ==> r.raw == v
    ensures ResultValue(v) == Some(Throttled) ==> r == Rejected(AccountReachLimit)
    ensures ResultValue(v) == Some(InvalidSessionValue) ==> r == Rejected(InvalidSession)
    ensures ResultValue(v) == Some(SuccessValue) && LimitCounters(v).Some?
            && LimitCounters(v).value.0.JNum? && LimitCounters(v).value.1.JNum?
            && LimitCounters(v).value.0.n > LimitCounters(v).value.1.n
            ==> r == Rejected(ConversationReachLimit(LimitCounters(v).value.0, LimitCounters(v).value.1))
    ensures r.Rejected? && r.error.ConversationReachLimit? ==>
              ResultValue(v) == Some(SuccessValue) && LimitCounters(v) == Some((r.error.num, r.error.max))
    ensures ResultValue(v) == Some(SuccessValue) && LimitCounters(v).Some?
            && PyGreater(LimitCounters(v).value.0, LimitCounters(v).value.1) == Some(true)
            ==> r == Rejected(ConversationReachLimit(LimitCounters(v).value.0, LimitCounters(v).value.1))
    ensures ResultValue(v) == Some(SuccessValue) && WithinLimit(v) && MessagePair(v).Some?
            && Field(MessagePair(v).value.0, "offense") == Some(JStr("Offensive"))
            ==> r == Rejected(Offensive)
    ensures ResultValue(v) == Some(SuccessValue) && WithinLimit(v) && MessagePair(v).Some?
            && Field(MessagePair(v).value.0, "offense") != Some(JStr("Offensive"))
            && Field(MessagePair(v).value.1, "hiddenText").Some?
            ==> r == Rejected(Hidden(Field(MessagePair(v).value.1, "hiddenText").value))
    ensures r.Rejected? && r.error.Offensive? ==>
              MessagePair(v).Some? && Field(MessagePair(v).value.0, "offense") == Some(JStr("Offensive"))
    ensures r.Rejected? && r.error.Hidden? ==>
              MessagePair(v).Some? && Field(MessagePair(v).value.1, "hiddenText") == Some(r.error.text)
    ensures ResultValue(v) !in {Some(Throttled), Some(InvalidSessionValue), Some(SuccessValue)} ==>
              r == Rejected(UnknownResponse)
    ensures MessagePair(v).None? && r.Rejected? ==> !r.error.Offensive? && !r.error.Hidden?
    ensures r.Rejected? ==> IsResponseError(r.error) || r.error == ValidationError
  {
    var value := ResultValue(v);
    if value == Some(Throttled) then Rejected(AccountReachLimit)
    else if value == Some(InvalidSessionValue) then Rejected(InvalidSession)
    else if value != Some(SuccessValue) then Rejected(UnknownResponse)
    else match LimitCounters(v)
      case Some((num, max)) =>
        (match PyGreater(num, max)
         case None => Rejected(ValidationError)
         case Some(over) => if over then Rejected(ConversationReachLimit(num, max)) else MessageCases(v))
      case None => MessageCases(v)
  }

  /** Validating `BingChatResponse(raw=v)`: the `dict` field's coercion,
      then `raw_validator` on the coerced mapping, which is what an accepted
      response keeps. */
  function Classify(v: Json): (r: Verdict)
    ensures AsDict(v, false).None? ==> r == Rejected(ValidationError)
    ensures v.JObj? ==> r == RawValidator(v)
    ensures r.Accepted? ==> r.raw.JObj? && AsDict(v, false) == Some(r.raw)
  {
    match AsDict(v, false)
    case None => Rejected(ValidationError)
    case Some(d) => RawValidator(d)
  }

  /** What an acceptable reply looks like, stated all at once rather than as
      a chain: a `Success` result whose counters (if both given) compare and
      are not over the limit, with two messages, the first not offensive, the
      second carrying `text` and no `hiddenText`. */
  predicate Acceptable(v: Json)
  {
    && ResultValue(v) == Some(SuccessValue)
    && WithinLimit(v)
    && MessagePair(v).Some?
    && Field(MessagePair(v).value.0, "offense") != Some(JStr("Offensive"))
    && Field(MessagePair(v).value.1, "hiddenText").None?
    && Field(MessagePair(v).value.1, "text").Some?
  }

  /** The ordered chain accepts exactly the acceptable replies, after the
      `dict` coercion. */
  lemma ClassifyAcceptsIff(v: Json)
    ensures RawValidator(v).Accepted? <==> Acceptable(v)
    ensures Classify(v).Accepted? <==> AsDict(v, false).Some? && Acceptable(AsDict(v, false).value)
  {
  }

  const ThrottledItem := JObj(map["result" := JObj(map["value" := Throttled])])

  /** Payloads that are not objects but that `dict()` turns into one are
      classified as that object: an empty list or string is an unknown
      response, a list of key-value pairs is read as its mapping; a value
      `dict()` refuses is a validation error. */
  lemma CoercedPayloads()
    ensures Classify(JArr([])) == Rejected(UnknownResponse)
    ensures Classify(JStr("")) == Rejected(UnknownResponse)
    ensures Classify(JArr([JArr([JStr("item"), ThrottledItem])])) == Rejected(AccountReachLimit)
    ensures Classify(JArr([JArr([JStr("item"), JNull]), JArr([JStr("item"), ThrottledItem])])) == Rejected(AccountReachLimit)
    ensures Classify(JStr("item")) == Rejected(ValidationError)
    ensures Classify(JArr([JNum(1)])) == Rejected(ValidationError)
  {
    PairListsThrottled();
  }

  /** The pair-list cases of `CoercedPayloads`: a throttled `item`, alone
      or after an earlier `item` it replaces. */
  lemma PairListsThrottled()
    ensures Classify(JArr([JArr([JStr("item"), ThrottledItem])])) == Rejected(AccountReachLimit)
    ensures Classify(JArr([JArr([JStr("item"), JNull]), JArr([JStr("item"), ThrottledItem])])) == Rejected(AccountReachLimit)
  {
    var single := [JArr([JStr("item"), ThrottledItem])];
    assert single[..0] == [];
    assert Pairs(single, false) == Some(map["item" := ThrottledItem]);
    var pairs := [JArr([JStr("item"), JNull]), JArr([JStr("item"), ThrottledItem])];
    assert pairs[..1] == [JArr([JStr("item"), JNull])];
    assert pairs[..1][..0] == [];
    assert Pairs(pairs[..1], false) == Some(map["item" := JNull]);
    assert map["item" := JNull]["item" := ThrottledItem] == map["item" := ThrottledItem];
    assert Pairs(pairs, false) == Some(map["item" := ThrottledItem]);
    ThrottledMapping();
  }

  lemma ThrottledMapping()
    ensures RawValidator(JObj(map["item" := ThrottledItem])) == Rejected(AccountReachLimit)
  {
    assert ResultValue(JObj(map["item" := ThrottledItem])) == Some(Throttled);
  }

  /** Python orders list counters too: `[2] > [1]`, so such a reply is the
      conversation limit. */
  lemma ListCountersOverLimit(messages: Json)
    ensures var v := JObj(map["item" := JObj(map[
              "result" := JObj(map["value" := SuccessValue]),
              "throttling" := JObj(map["numUserMessagesInConversation" := JArr([JNum(2)]),
                                       "maxNumUserMessagesInConversation" := JArr([JNum(1)])]),
              "messages" := messages])]);
            Classify(v) == Rejected(ConversationReachLimit(JArr([JNum(2)]), JArr([JNum(1)])))
  {
    var counters := JObj(map["numUserMessagesInConversation" := JArr([JNum(2)]),
                             "maxNumUserMessagesInConversation" := JArr([JNum(1)])]);
    var v := JObj(map["item" := JObj(map[
               "result" := JObj(map["value" := SuccessValue]),
               "throttling" := counters,
               "messages" := messages])]);
    assert ResultValue(v) == Some(SuccessValue);
    assert LimitCounters(v) == Some((JArr([JNum(2)]), JArr([JNum(1)])));
    assert FirstDifference([JNum(2)], [JNum(1)]) == Some(0);
    assert PyGreater(JArr([JNum(2)]), JArr([JNum(1)])) == Some(true);
  }

  /** Equal counters never trigger the conversation limit. */
  lemma EqualCountersNotLimit(v: Json, n: int)
    requires LimitCounters(v) == Some((JNum(n), JNum(n)))
    ensures !(Classify(v).Rejected? && Classify(v).error.ConversationReachLimit?)
  {
  }

  // ------------------------------------------------------------------
  // Content accessors
  // ------------------------------------------------------------------

  /** `get_response_content_handler`: a missing key or position becomes the
      response exception; a TypeError escapes unchanged. */
  function Translate(e: PyError): (x: Exc)
    ensures e == TypeError <==> x == PyTypeError
    ensures e != TypeError ==> x == InvalidResponseValue
  {
    if e == TypeError then PyTypeError else InvalidResponseValue
  }

  function Lookup(raw: Json, path: seq<Step>): Result<Json>
  {
    match Walk(raw, path)
    case Hit(x) => Ok(x)
    case Miss(e) => Err(Translate(e))
  }

  const SecondMessage: seq<Step> := [Key("item"), Key("messages"), Index(1)]
  const Throttling: seq<Step> := [Key("item"), Key("throttling")]

  /** The value of a run of ASCII digits. */
  function DigitsValue(s: string): nat
    requires AllDigits(s)
    decreases |s|
  {
    if s == [] then 0 else DigitsValue(s[..|s| - 1]) * 10 + (s[|s| - 1] as int - '0' as int)
  }

  /** Python's `int(x)` on a JSON value: numbers and booleans convert,
      strings of ASCII digits with an optional sign parse, other strings
      raise ValueError and other values TypeError. Python also accepts
      surrounding whitespace, `_` separators and other Unicode digits. */
  function PyInt(x: Json): (r: Result<int>)
    ensures x.JNum? ==> r == Ok(x.n)
  {
    match x
    case JNum(n) => Ok(n)
    case JBool(b) => Ok(if b then 1 else 0)
    case JStr(s) =>
      if s != [] && AllDigits(s) then Ok(DigitsValue(s))
      else if |s| > 1 && (s[0] == '-' || s[0] == '+') && AllDigits(s[1..]) then
        var magnitude: int := DigitsValue(s[1..]);
        Ok(if s[0] == '-' then -magnitude else magnitude)
      else Err(PyValueError("int"))
    case _ => Err(PyTypeError)
  }

  /** `num_conversation`. */
  function NumConversation(raw: Json): (r: Result<int>)
    ensures var x := Walk(raw, Throttling + [Key("numUserMessagesInConversation")]);
            x.Hit? && x.value.JNum? ==> r == Ok(x.value.n)
    ensures var x := Walk(raw, Throttling + [Key("numUserMessagesInConversation")]);
            x.Miss? ==> r == Err(Translate(x.error))
  {
    match Lookup(raw, Throttling + [Key("numUserMessagesInConversation")])
    case Ok(x) => PyInt(x)
    case Err(e) => Err(e)
  }

  /** `max_conversation`. */
  function MaxConversation(raw: Json): (r: Result<int>)
    ensures var x := Walk(raw, Throttling + [Key("maxNumUserMessagesInConversation")]);
            x.Hit? && x.value.JNum? ==> r == Ok(x.value.n)
    ensures var x := Walk(raw, Throttling + [Key("maxNumUserMessagesInConversation")]);
            x.Miss? ==> r == Err(Translate(x.error))
  {
    match Lookup(raw, Throttling + [Key("maxNumUserMessagesInConversation")])
    case Ok(x) => PyInt(x)
    case Err(e) => Err(e)
  }

  /** `content_answer`: the second message's text with citations removed. */
  function ContentAnswer(raw: Json): (r: Result<string>)
    ensures Walk(raw, SecondMessage + [Key("text")]).Hit? && Walk(raw, SecondMessage + [Key("text")]).value.JStr?
            ==> r == Ok(RemoveQuoteStr(Walk(raw, SecondMessage + [Key("text")]).value.s))
    ensures Walk(raw, SecondMessage + [Key("text")]).Miss? && Walk(raw, SecondMessage + [Key("text")]).error != TypeError
            ==> r == Err(InvalidResponseValue)
  {
    match Lookup(raw, SecondMessage + [Key("text")])
    case Ok(JStr(s)) => Ok(RemoveQuoteStr(s))
    case Ok(_) => Err(PyTypeError)
    case Err(e) => Err(e)
  }

  /** `[i[key] for i in items]` over a list's items, raising at the first bad one. */
  function ProjectItems(items: seq<Json>, key: string): (r: Result<seq<Json>>)
    ensures r.Ok? ==> |r.value| == |items|
                      && forall i :: 0 <= i < |items| ==> Subscript(items[i], Key(key)) == Hit(r.value[i])
    ensures r.Err? ==> exists i :: 0 <= i < |items| && Subscript(items[i], Key(key)).Miss?
    decreases |items|
  {
    if items == [] then Ok([])
    else match Subscript(items[0], Key(key))
      case Miss(e) => Err(Translate(e))
      case Hit(x) =>
        match ProjectItems(items[1..], key)
        case Ok(rest) => Ok([x] + rest)
        case Err(e) => Err(e)
  }

  /** When every item has the key, the projection is exactly their values. */
  lemma {:induction false} ProjectItemsAllHit(items: seq<Json>, key: string, values: seq<Json>)
    requires |values| == |items|
    requires forall i :: 0 <= i < |items| ==> Subscript(items[i], Key(key)) == Hit(values[i])
    ensures ProjectItems(items, key) == Ok(values)
    decreases |items|
  {
    if items != [] {
      ProjectItemsAllHit(items[1..], key, values[1..]);
      assert [values[0]] + values[1..] == values;
    }
  }

  /** The projection raises what the first item without the key raises. */
  lemma {:induction false} ProjectItemsFirstMiss(items: seq<Json>, key: string, k: nat)
    requires k < |items| && Subscript(items[k], Key(key)).Miss?
    requires forall i :: 0 <= i < k ==> Subscript(items[i], Key(key)).Hit?
    ensures ProjectItems(items, key) == Err(Translate(Subscript(items[k], Key(key)).error))
    decreases k
  {
    if k > 0 {
      ProjectItemsFirstMiss(items[1..], key, k - 1);
    }
  }

  /** `[i[key] for i in x]` for any JSON value `x`: iterating an object
      yields its keys and iterating a string its characters, and
      subscripting either with a key raises TypeError. */
  function Project(x: Json, key: string): (r: Result<seq<Json>>)
  {
    match x
    case JArr(items) => ProjectItems(items, key)
    case JObj(m) => if |m| == 0 then Ok([]) else Err(PyTypeError)
    case JStr(s) => if s == "" then Ok([]) else Err(PyTypeError)
    case _ => Err(PyTypeError)
  }

  /** `source_attributions_url_list`. */
  function SourceAttributionsUrlList(raw: Json): Result<seq<Json>>
  {
    match Lookup(raw, SecondMessage + [Key("sourceAttributions")])
    case Ok(x) => Project(x, "seeMoreUrl")
    case Err(e) => Err(e)
  }

  /** `suggested_question_list`. */
  function SuggestedQuestionList(raw: Json): Result<seq<Json>>
  {
    match Lookup(raw, SecondMessage + [Key("suggestedResponses")])
    case Ok(x) => Project(x, "text")
    case Err(e) => Err(e)
  }

  /** One `- {i}` line per value. */
  function Bullets(xs: seq<Json>): (r: seq<string>)
    ensures |r| == |xs|
    ensures forall i :: 0 <= i < |xs| ==> r[i] == "- " + Scalar(xs[i])
  {
    seq(|xs|, i requires 0 <= i < |xs| => "- " + Scalar(xs[i]))
  }

  /** `content_reference`. */
  function ContentReference(raw: Json): Result<string>
  {
    match SourceAttributionsUrlList(raw)
    case Ok(urls) => Ok(Join(Bullets(urls), "\n"))
    case Err(e) => Err(e)
  }

  /** `content_suggested_question`. */
  function ContentSuggestedQuestion(raw: Json): Result<string>
  {
    match SuggestedQuestionList(raw)
    case Ok(qs) => Ok(Join(Bullets(qs), "\n"))
    case Err(e) => Err(e)
  }

  predicate NoNewline(s: string) { forall j :: 0 <= j < |s| ==> s[j] != '\n' }

  /** The references read back line by line are the URLs, in order, each
      behind a bullet (for URLs without a line break). */
  lemma ContentReferenceLines(raw: Json)
    requires SourceAttributionsUrlList(raw).Ok?
    requires var urls := SourceAttributionsUrlList(raw).value;
             urls != [] && forall i :: 0 <= i < |urls| ==> NoNewline(Scalar(urls[i]))
    ensures ContentReference(raw).Ok?
    ensures var urls := SourceAttributionsUrlList(raw).value;
            var lines := SplitAny(ContentReference(raw).value, {'\n'});
            |lines| == |urls| && forall i :: 0 <= i < |urls| ==> lines[i] == "- " + Scalar(urls[i])
  {
    var urls := SourceAttributionsUrlList(raw).value;
    var b := Bullets(urls);
    forall i, j | 0 <= i < |b| && 0 <= j < |b[i]| ensures b[i][j] != '\n' {
      if j >= 2 { assert b[i][j] == Scalar(urls[i])[j - 2]; }
    }
    SplitJoin(b, '\n', {'\n'});
  }

  /** `adaptive_cards`: `list()` of the first card's body: a list as it
      is, a string as its characters, a mapping as its keys. */
  ghost function AdaptiveCards(raw: Json): (r: Result<seq<Json>>)
    ensures var w := Walk(raw, SecondMessage + [Key("adaptiveCards"), Index(0), Key("body")]);
            w.Hit? && w.value.JArr? ==> r == Ok(w.value.items)
    ensures var w := Walk(raw, SecondMessage + [Key("adaptiveCards"), Index(0), Key("body")]);
            w.Hit? && w.value.JStr? ==>
              r.Ok? && |r.value| == |w.value.s|
              && forall i :: 0 <= i < |w.value.s| ==> r.value[i] == JStr([w.value.s[i]])
    ensures var w := Walk(raw, SecondMessage + [Key("adaptiveCards"), Index(0), Key("body")]);
            w.Hit? && w.value.JObj? ==>
              r.Ok? && |r.value| == |w.value.fields.Keys|
              && (forall i :: 0 <= i < |r.value| ==> r.value[i].JStr? && r.value[i].s in w.value.fields)
              && (forall k :: k in w.value.fields ==> JStr(k) in r.value)
    ensures var w := Walk(raw, SecondMessage + [Key("adaptiveCards"), Index(0), Key("body")]);
            w.Hit? && (w.value.JNull? || w.value.JBool? || w.value.JNum?) ==> r == Err(PyTypeError)
    ensures var w := Walk(raw, SecondMessage + [Key("adaptiveCards"), Index(0), Key("body")]);
            w.Miss? ==> r == Err(Translate(w.error))
  {
    match Lookup(raw, SecondMessage + [Key("adaptiveCards"), Index(0), Key("body")])
    case Ok(JArr(items)) => Ok(items)
    case Ok(JStr(s)) => Ok(seq(|s|, i requires 0 <= i < |s| => JStr([s[i]])))
    case Ok(JObj(m)) => Ok(KeyList(m.Keys))
    case Ok(_) => Err(PyTypeError)
    case Err(e) => Err(e)
  }

  /** `list(d)` of a mapping: its keys, each once. Python lists them in
      insertion order, which `JObj` does not record, so the order here is
      left unspecified. */
  ghost function KeyList(ks: set<string>): (r: seq<Json>)
    ensures |r| == |ks|
    ensures forall i :: 0 <= i < |r| ==> r[i].JStr? && r[i].s in ks
    ensures forall k :: k in ks ==> JStr(k) in r
    decreases ks
  {
    if ks == {} then [] else var k :| k in ks; [JStr(k)] + KeyList(ks - {k})
  }

  /** `get_content`: one of the four content types, or TypeError. */
  function GetContent(raw: Json, contentType: string): (r: Result<string>)
    ensures contentType !in ContentTypes ==> r == Err(PyTypeError)
    ensures contentType == "answer" ==> r == ContentAnswer(raw)
    ensures contentType == "reference" ==> r == ContentReference(raw)
    ensures contentType == "suggested-question" ==> r == ContentSuggestedQuestion(raw)
    ensures contentType == "num-max-conversation" && r.Ok? ==>
              NumConversation(raw).Ok? && MaxConversation(raw).Ok?
              && r.value == Decimal(NumConversation(raw).value) + "/" + Decimal(MaxConversation(raw).value)
  {
    if contentType == "answer" then ContentAnswer(raw)
    else if contentType == "reference" then ContentReference(raw)
    else if contentType == "suggested-question" then ContentSuggestedQuestion(raw)
    else if contentType == "num-max-conversation" then
      match NumConversation(raw)
      case Err(e) => Err(e)
      case Ok(num) =>
        match MaxConversation(raw)
        case Err(e) => Err(e)
        case Ok(max) => Ok(Decimal(num) + "/" + Decimal(max))
    else Err(PyTypeError)
  }

  lemma {:induction false} DigitsNoSlash(n: nat)
    ensures '/' !in Digits(n)
    decreases n
  {
    if n >= 10 { DigitsNoSlash(n / 10); }
  }

  /** The counts read back: splitting `<num>/<max>` at the slash gives the
      two counters again. */
  lemma CountsRoundTrip(raw: Json)
    requires GetContent(raw, "num-max-conversation").Ok?
    ensures SplitAny(GetContent(raw, "num-max-conversation").value, {'/'})
            == [Decimal(NumConversation(raw).value), Decimal(MaxConversation(raw).value)]
  {
    var a, b := Decimal(NumConversation(raw).value), Decimal(MaxConversation(raw).value);
    assert GetContent(raw, "num-max-conversation").value == Join([a, b], "/");
    DecimalNoSlash(NumConversation(raw).value);
    DecimalNoSlash(MaxConversation(raw).value);
    SplitJoin([a, b], '/', {'/'});
  }

  lemma DecimalNoSlash(n: int)
    ensures '/' !in Decimal(n)
  {
    if n < 0 {
      DigitsNoSlash(-n);
      assert Decimal(n) == "-" + Digits(-n);
    } else {
      DigitsNoSlash(n);
    }
  }

  // ------------------------------------------------------------------
  // Users and the plugin's state
  // ------------------------------------------------------------------

  /** `UserInfo`: the key of a session, by platform and user id. */
  datatype UserInfo = UserInfo(platform: string, userId: int)

  datatype Sender = Sender(userId: int, userName: string)

  /** A backend client, bound to the cookies file it was created from. */
  datatype Chatbot = Chatbot(cookiesPath: string)

  /** One accepted turn: the question and the raw reply. */
  datatype Conversation = Conversation(ask: string, response: Json)

  /** `UserData`: one user's session. */
  class UserData {
    var sender: Sender
    var chatbot: Option<Chatbot>
    /** `last_time`: evaluated once when the class is defined; opaque. */
    var lastTime: int
    var isWaiting: bool
    var history: seq<Conversation>

    /** A fresh session: no backend client, not waiting, empty history. */
    constructor (sender: Sender, lastTime: int)
      ensures this.sender == sender && this.lastTime == lastTime
      ensures chatbot == None && !isWaiting && history == []
    {
      this.sender := sender;
      this.lastTime := lastTime;
      chatbot := None;
      isWaiting := false;
      history := [];
    }

    /** `latest_conversation`: the last turn, or IndexError when there is none. */
    function LatestConversation(): (r: Result<Conversation>)
      reads this
      ensures history != [] ==> r == Ok(history[|history| - 1])
      ensures history == [] ==> r == Err(PyIndexError)
    {
      if history == [] then Err(PyIndexError) else Ok(history[|history| - 1])
    }

    /** `clear` as written: after closing the client it assigns the sender and
        then `first_ask_message_id`, a field `UserData` does not declare, which
        the model class refuses with a ValueError; the client and history are
        never reset. */
    method ClearAsWritten(sender: Sender) returns (r: Result<()>)
      modifies this
      ensures this.sender == sender
      ensures chatbot == old(chatbot) && history == old(history)
      ensures isWaiting == old(isWaiting) && lastTime == old(lastTime)
      ensures r == Err(PyValueError("first_ask_message_id"))
    {
      this.sender := sender;
      r := Err(PyValueError("first_ask_message_id"));
    }

    /** `clear` as intended: a new sender, no backend client, empty history. */
    method Clear(sender: Sender)
      modifies this
      ensures this.sender == sender && chatbot == None && history == []
      ensures isWaiting == old(isWaiting) && lastTime == old(lastTime)
    {
      this.sender := sender;
      chatbot := None;
      history := [];
    }
  }

  /** On a session with history, `clear` as written leaves the history in
      place: the returned length is that of the history after the call. */
  method ClearAsWrittenKeepsHistory(c: Conversation) returns (kept: nat, cleared: nat)
    ensures kept == 1 && cleared == 0
  {
    var s := Sender(1, "u");
    var u := new UserData(s, 0);
    u.history := [c];
    var err := u.ClearAsWritten(s);
    kept := |u.history|;
    u.Clear(s);
    cleared := |u.history|;
  }

  /** `PluginData`: the process-wide state. */
  class PluginData {
    var cookiesFilePathList: seq<string>
    var currentCookiesFilePath: string
    var isSwitchingCookies: bool
    var userDataDict: map<UserInfo, UserData>
    /** Maps the id of an answer message the bot sent to the user it answered. */
    var replyMessageIdDict: map<int, UserInfo>

    constructor ()
      ensures cookiesFilePathList == [] && currentCookiesFilePath == "." && !isSwitchingCookies
      ensures userDataDict == map[] && replyMessageIdDict == map[]
    {
      cookiesFilePathList := [];
      currentCookiesFilePath := ".";
      isSwitchingCookies := false;
      userDataDict := map[];
      replyMessageIdDict := map[];
    }
  }
}
