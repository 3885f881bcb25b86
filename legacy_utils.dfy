/** The earliest helpers (nonebot_plugin_bing_chat/utils.py): a citation
    stripper that knows only one-digit markers, the raw reply accessor and
    the help text. */
module LegacyUtils {
  import opened Json
  import opened Text
  import opened Errors
  import SrcDataModel

  /** `s` starts with a one-digit marker `[^d^]`. */
  predicate SingleMarkerAt(s: string)
  {
    |s| >= 5 && s[0] == '[' && s[1] == '^' && SrcDataModel.IsDigit(s[2]) && s[3] == '^' && s[4] == ']'
  }

  /** `removeQuoteStr`: deletes `[^d^]` for a single digit `d`, left to right. */
  function RemoveQuoteStr(s: string): (r: string)
    ensures |r| <= |s|
    decreases |s|
  {
    if s == [] then []
    else if SingleMarkerAt(s) then RemoveQuoteStr(s[5..])
    else [s[0]] + RemoveQuoteStr(s[1..])
  }

  /** Text without `[` is kept, and what follows is treated on its own. */
  lemma {:induction false} KeepsPlain(a: string, rest: string)
    requires '[' !in a
    ensures RemoveQuoteStr(a + rest) == a + RemoveQuoteStr(rest)
    decreases |a|
  {
    if a != [] {
      var s := a + rest;
      assert s[0] == a[0] && s[1..] == a[1..] + rest;
      KeepsPlain(a[1..], rest);
      assert [a[0]] + (a[1..] + RemoveQuoteStr(rest)) == a + RemoveQuoteStr(rest);
    } else {
      assert a + rest == rest;
    }
  }

  /** A one-digit marker is deleted, as in the later strippers. */
  lemma DropsSingleDigit(d: char, rest: string)
    requires SrcDataModel.IsDigit(d)
    ensures RemoveQuoteStr(SrcDataModel.Marker([d]) + rest) == RemoveQuoteStr(rest)
    ensures SrcDataModel.RemoveQuoteStr(SrcDataModel.Marker([d]) + rest) == SrcDataModel.RemoveQuoteStr(rest)
  {
    assert (SrcDataModel.Marker([d]) + rest)[5..] == rest;
    SrcDataModel.RemoveDropsMarker([d], rest);
  }

  /** A marker of two or more digits is left whole, where the later
      strippers delete it. */
  lemma KeepsMultiDigit(digits: string)
    requires |digits| >= 2 && SrcDataModel.AllDigits(digits)
    ensures RemoveQuoteStr(SrcDataModel.Marker(digits)) == SrcDataModel.Marker(digits)
    ensures SrcDataModel.RemoveQuoteStr(SrcDataModel.Marker(digits)) == ""
  {
    var m := SrcDataModel.Marker(digits);
    var tail := m[1..];
    assert !SingleMarkerAt(m) by { assert m[3] == digits[1]; assert SrcDataModel.IsDigit(digits[1]); }
    assert '[' !in tail by {
      forall j | 0 <= j < |tail| ensures tail[j] != '[' {
        if 1 <= j <= |digits| { assert tail[j] == digits[j - 1]; assert SrcDataModel.IsDigit(digits[j - 1]); }
      }
    }
    KeepsPlain(tail, "");
    assert tail + "" == tail;
    assert [m[0]] + tail == m;
    SrcDataModel.RemoveDropsMarker(digits, "");
    assert m + "" == m;
  }

  const ReplyPath: seq<Step> := [Key("item"), Key("messages"), Index(1), Key("text")]

  /** `BingChatResponse.reply`: the second message's text, unvalidated and
      unstripped, with Python's own exception when a step fails. The later
      `content_answer` strips it, and turns KeyError and IndexError into the
      response exception. */
  function Reply(raw: Json): (r: Lookup)
    ensures r.Hit? && r.value.JStr? ==> SrcDataModel.ContentAnswer(raw) == Ok(SrcDataModel.RemoveQuoteStr(r.value.s))
    ensures r.Miss? && r.error != TypeError ==> SrcDataModel.ContentAnswer(raw) == Err(InvalidResponseValue)
    ensures r.Miss? && r.error == TypeError ==> SrcDataModel.ContentAnswer(raw) == Err(PyTypeError)
  {
    assert SrcDataModel.SecondMessage + [Key("text")] == ReplyPath;
    Walk(raw, ReplyPath)
  }

  const HelpLines: seq<string> := [
    "命令符号：\"#\", \"/\", \".\"",
    "开始对话：{{命令符号}} chat/Chat/聊天 + 内容",
    "重置一个对话：{{命令符号}}refresh-chat/刷新对话"]

  /** `helpMessage`: the command prefixes, how to chat and how to reset;
      the doubled braces are literal text. */
  function HelpMessage(): (r: string)
    ensures SplitAny(r, {'\n'}) == HelpLines
  {
    assert forall i, j :: 0 <= i < |HelpLines| && 0 <= j < |HelpLines[i]| ==> HelpLines[i][j] != '\n';
    SplitJoin(HelpLines, '\n', {'\n'});
    Join(HelpLines, "\n")
  }
}
