# nonebot-plugin-bing-chat, modelled in Dafny

nonebot-plugin-bing-chat is a chat-bot plugin for the NoneBot framework. It
passes questions from QQ (OneBot v11) and Telegram users to an unofficial
Bing Chat client and sends the answers back. The repository holds two
generations of the plugin: the current one under
`src/plugins/nonebot_plugin_bing_chat/` and an older one under
`nonebot_plugin_bing_chat/`. The older tree itself mixes an earliest layer
(`check.py`, `config.py`, `exceptions.py`, `utils.py`, `common/dataModel.py`)
with a later one (`common/`, `onebotv11/`).

This project models the decision and bookkeeping code around the network
calls, one Dafny module per source file:

- **Response classification and content.** `SrcDataModel`, `DataModel` and
  `LegacyDataModel` model the three `BingChatResponse` classifiers over a
  JSON datatype (`Json`). The first two are pattern matches and the third is
  an if-chain over `deep_get`. They also model the content accessors, the
  citation-marker removal and the configuration validators. Python's
  subscript semantics and its `KeyError`/`IndexError`/`TypeError` outcomes
  are modelled explicitly. Exceptions are values of `Errors.Exc`, and
  fallible operations return `Errors.Result`.
- **Admission.** `SrcOnebotCheck`, `OnebotCheck` and `LegacyCheck` model
  the group black/whitelist filter with its superuser bypass, the
  group-temporary refusal, the waiting gate and the earliest per-user
  counter.
- **Sessions.** `SrcDataModel.UserData` and `SrcDataModel.PluginData` are
  classes holding the session fields and the two maps: sessions by
  `(platform, user id)` and the reply index by message id. The handlers in
  `SrcOnebotMain`, `TelegramMain` and `OnebotMain` are methods that change
  them step by step. Those handlers cover the gate order, the waiting flag,
  the history append, the recursion-depth cap of the auto-refresh and the
  reply-index writes. `Effects.World` stands for the platform and the
  backend. It records the messages sent and deleted, answers questions from
  a given list of replies, and says whether creating a client fails.
- **Cookie rotation.** `SrcCommonUtils.SwitchToUsableCookies` and
  `CommonUtils.SwitchToUsableCookies` select the first usable cookie file
  from a given sequence of probe results. On every path they clear the
  switching flag.
- **Display assembly.** `SrcCommonUtils`, `SrcOnebotUtils`, `OnebotUtils`
  and `TelegramUtils` model the per-content-type headings, the skipping of
  empty parts (current code only) and the joins. They also build one
  message per display entry and the history bundle of alternating
  user/Bing nodes.
- **Exception hierarchies.** `CommonExceptions` and `LegacyExceptions`
  model the subclass relation.

Every loop of the source is a method whose postcondition ties its result to
a recursive function. The properties the source promises are proved about
that function as lemmas. Examples: one part per content type, two history
nodes per conversation, the parse/render round trip of display entries, and
the first usable cookie file. The three classifiers are related to each
other by lemmas, and so are the three citation-marker removals and the two
list checks.

## Model

| member | source | states |
|---|---|---|
| SrcDataModel.DigitRun | src/plugins/nonebot_plugin_bing_chat/common/data_model.py:40 | the `\d+?` part of the citation pattern: the longest run of digits at the front of the text |
| SrcDataModel.MarkerLength | src/plugins/nonebot_plugin_bing_chat/common/data_model.py:40 | a citation marker `[^` digits `^]` matched at the front is at least five characters long and fits in the text |
| SrcDataModel.RemoveQuoteStr | src/plugins/nonebot_plugin_bing_chat/common/data_model.py:39-40 | removing citation markers never lengthens the text |
| SrcDataModel.RemoveDropsMarker | src/plugins/nonebot_plugin_bing_chat/common/data_model.py:39-40 | a marker with any number of digits is removed and the rest is treated alone |
| SrcDataModel.RemoveKeepsPlain | src/plugins/nonebot_plugin_bing_chat/common/data_model.py:39-40 | text without `[` passes through unchanged in front of the rest |
| SrcDataModel.MarkerShortens | src/plugins/nonebot_plugin_bing_chat/common/data_model.py:39-40 | a text holding a marker anywhere gets strictly shorter |
| SrcDataModel.NoMarkerKept | src/plugins/nonebot_plugin_bing_chat/common/data_model.py:39-40 | a text in which no marker starts anywhere is returned unchanged |
| SrcDataModel.RemoveIsIdentityIff | src/plugins/nonebot_plugin_bing_chat/common/data_model.py:39-40 | the text is left unchanged iff it holds no marker |
| SrcDataModel.RemoveTwoMarkers | src/plugins/nonebot_plugin_bing_chat/common/data_model.py:39-40 | in plain text interleaved with two markers, exactly the markers disappear |
| SrcDataModel.RemoveExample | src/plugins/nonebot_plugin_bing_chat/common/data_model.py:39-40 | `Hello [^d^] world [^e^]` becomes `Hello  world ` |
| SrcDataModel.InnerMarkerDropped | src/plugins/nonebot_plugin_bing_chat/common/data_model.py:39-40 | a marker inside a marker-like frame is removed and the frame's characters stay |
| SrcDataModel.NestedFirstPass | src/plugins/nonebot_plugin_bing_chat/common/data_model.py:39-40 | one pass over a nested marker leaves a new marker behind |
| SrcDataModel.RemoveNotIdempotent | src/plugins/nonebot_plugin_bing_chat/common/data_model.py:39-40 | the removal is not idempotent: a second pass over a nested marker changes the text again |
| SrcDataModel.DefaultConfig | src/plugins/nonebot_plugin_bing_chat/common/data_model.py:56-89 | the configuration defaults: OneBot v11 only, blacklist filter, the three default command sets, text display of counts, answer and suggestions, auto-refresh on, auto-switch off, waiting notice on, no forwarding |
| SrcDataModel.AdaptersValidator | src/plugins/nonebot_plugin_bing_chat/common/data_model.py:94-107 | refused iff falsy; `all` gives the six adapters; another string gives itself; a list gives its elements |
| SrcDataModel.CommandValidator | src/plugins/nonebot_plugin_bing_chat/common/data_model.py:109-125 | refused iff falsy; a string is one command; a list gives its elements |
| SrcDataModel.Entries | src/plugins/nonebot_plugin_bing_chat/common/data_model.py:134 | `list(v)` keeps a list and splits a string into its characters |
| SrcDataModel.ParseDisplayEntryOk | src/plugins/nonebot_plugin_bing_chat/common/data_model.py:135-146 | a parsed entry has a known display type and known content types, and they are exactly the pieces of the entry split at `.` and `&` |
| SrcDataModel.ParseRenderDisplayEntry | src/plugins/nonebot_plugin_bing_chat/common/data_model.py:135-146 | writing a valid entry with either separator and parsing it gives the entry back |
| SrcDataModel.DisplayContentTypesValidator | src/plugins/nonebot_plugin_bing_chat/common/data_model.py:127-147 | succeeds iff the value is truthy and every entry parses, and then holds one parsed entry per entry; otherwise the error is that of the first entry that does not parse |
| SrcDataModel.PyGreater | src/plugins/nonebot_plugin_bing_chat/common/data_model.py:168-179 | Python's `>`: numbers compare numerically, strings by code points, and lists lexicographically at their first unequal item (the longer list wins a tie); `None` and mappings are refused with `TypeError` |
| SrcDataModel.FirstDifference | src/plugins/nonebot_plugin_bing_chat/common/data_model.py:168-179 | the first index where two lists differ under Python `==`, with every earlier pair equal; none when one list is a prefix of the other |
| SrcDataModel.ListGreaterThanPrefix | src/plugins/nonebot_plugin_bing_chat/common/data_model.py:168-179 | a list is greater than its own proper prefix and not the other way round |
| SrcDataModel.ListCountersOverLimit | src/plugins/nonebot_plugin_bing_chat/common/data_model.py:168-179 | counters given as the lists `[2]` and `[1]` compare as lists, so the reply is refused as over the conversation limit |
| SrcDataModel.Classify | src/plugins/nonebot_plugin_bing_chat/common/data_model.py:155-218 | the field `raw: dict` first goes through `dict(v)`: a value with no mapping form fails validation, an object is classified as it is, and a list of pairs or the empty string becomes a mapping that is then classified; an accepted response is that mapping |
| SrcDataModel.RawValidator | src/plugins/nonebot_plugin_bing_chat/common/data_model.py:157-218 | the `raw_validator` match: `Throttled`, `InvalidSession`, `num > max`, an offensive first message and a hidden text each give their refusal with the matching fields, in both directions: a `Success` reply over its counters (lists compared as Python does) is the conversation limit, and one within them with two messages is the offensive refusal when the first is offensive and otherwise the hidden-text refusal when the second has `hiddenText`; an accepted reply is the value itself; any other result value is unknown |
| SrcDataModel.CoercedPayloads | src/plugins/nonebot_plugin_bing_chat/common/data_model.py:155-167 | an empty list and the empty string validate as an empty mapping and are unknown replies; a pair list carrying a throttled `item` is the account limit, the later pair winning; a bare string or a list of non-pairs fails validation |
| Json.AsDict | src/plugins/nonebot_plugin_bing_chat/common/data_model.py:155 | `dict(v)` on a JSON value: a mapping is itself; a list is its pairs (a later key wins) and fails on any element that is not a pair; the empty string is the empty mapping; other scalars have no mapping form |
| Json.PairsRefusedIff | src/plugins/nonebot_plugin_bing_chat/common/data_model.py:155 | a list of pairs fails to convert iff one of its elements is refused |
| Json.PairsLastWins | src/plugins/nonebot_plugin_bing_chat/common/data_model.py:155 | a converted pair list maps each key to the value of its last pair |
| Json.PairsOnlyEntries | src/plugins/nonebot_plugin_bing_chat/common/data_model.py:155 | a key that no pair carries is not a key of the converted mapping |
| SrcDataModel.ClassifyAcceptsIff | src/plugins/nonebot_plugin_bing_chat/common/data_model.py:155-214 | the match accepts a mapping iff it is a successful, non-offensive, two-message reply without hidden text and within its counters; a value is accepted iff its `dict()` form exists and is such a reply |
| SrcDataModel.EqualCountersNotLimit | src/plugins/nonebot_plugin_bing_chat/common/data_model.py:168-179 | equal counters are not the conversation limit (the comparison is strict) |
| SrcDataModel.Translate | src/plugins/nonebot_plugin_bing_chat/common/data_model.py:43-53 | a `KeyError` or `IndexError` in a content property becomes the invalid-response error; a `TypeError` passes through |
| SrcDataModel.PyInt | src/plugins/nonebot_plugin_bing_chat/common/data_model.py:220-228 | `int()` of a number is that number |
| SrcDataModel.NumConversation | src/plugins/nonebot_plugin_bing_chat/common/data_model.py:220-223 | the message count found under `throttling`, or the translated lookup error |
| SrcDataModel.MaxConversation | src/plugins/nonebot_plugin_bing_chat/common/data_model.py:225-228 | the message limit found under `throttling`, or the translated lookup error |
| SrcDataModel.ContentAnswer | src/plugins/nonebot_plugin_bing_chat/common/data_model.py:230-233 | the second message's text with markers removed, or the invalid-response error when a key or index is missing |
| SrcDataModel.ProjectItems | src/plugins/nonebot_plugin_bing_chat/common/data_model.py:250-263 | the comprehension `[i[key] for i in items]`: one value per item, found under the key, or fails only when some item lacks it |
| SrcDataModel.ProjectItemsAllHit | src/plugins/nonebot_plugin_bing_chat/common/data_model.py:250-263 | when every item has the key, the result is exactly their values |
| SrcDataModel.ProjectItemsFirstMiss | src/plugins/nonebot_plugin_bing_chat/common/data_model.py:250-263 | the error is that of the first item lacking the key |
| SrcDataModel.Bullets | src/plugins/nonebot_plugin_bing_chat/common/data_model.py:235-243 | each element becomes one `- ` line, in order |
| SrcDataModel.ContentReferenceLines | src/plugins/nonebot_plugin_bing_chat/common/data_model.py:235-256 | reading the reference content back line by line gives the source URLs, each behind its bullet |
| SrcDataModel.AdaptiveCards | src/plugins/nonebot_plugin_bing_chat/common/data_model.py:245-248 | `list()` of the first card's body: a list is itself, a string its characters, a mapping its keys (in an unspecified order), any other value a `TypeError`; a failed lookup is the translated error |
| SrcDataModel.GetContent | src/plugins/nonebot_plugin_bing_chat/common/data_model.py:265-276 | each content type selects its property; `num-max-conversation` is the two counters joined by `/`; an unknown type is a `TypeError` |
| SrcDataModel.CountsRoundTrip | src/plugins/nonebot_plugin_bing_chat/common/data_model.py:273-274 | splitting the counts content at `/` gives the two counters back |
| SrcDataModel.DecimalNoSlash | src/plugins/nonebot_plugin_bing_chat/common/data_model.py:274 | a decimal number never contains `/` |
| SrcDataModel.UserData.constructor | src/plugins/nonebot_plugin_bing_chat/common/data_model.py:294-300 | a new session has no client, is not waiting and has no history |
| SrcDataModel.UserData.LatestConversation | src/plugins/nonebot_plugin_bing_chat/common/data_model.py:302-304 | the last conversation, or an `IndexError` on an empty history |
| SrcDataModel.UserData.ClearAsWritten | src/plugins/nonebot_plugin_bing_chat/common/data_model.py:314-322 | as written, clearing sets the sender and then fails on the undeclared `first_ask_message_id` field, keeping the client and the history |
| SrcDataModel.UserData.Clear | src/plugins/nonebot_plugin_bing_chat/common/data_model.py:314-322 | as intended, clearing sets the sender and drops the client and the history, keeping the waiting flag |
| SrcDataModel.ClearAsWrittenKeepsHistory | src/plugins/nonebot_plugin_bing_chat/common/data_model.py:314-322 | on a session with one conversation the written clear keeps it and the intended clear drops it |
| SrcDataModel.PluginData.constructor | src/plugins/nonebot_plugin_bing_chat/common/data_model.py:325-334 | the plugin state starts with no cookie files, the current directory as cookie path, no sessions and no reply index |
| SrcCommonUtils.MatchCommandIff | src/plugins/nonebot_plugin_bing_chat/common/utils.py:37-47 | one start symbol matches iff the message starts with that symbol followed by one of the commands |
| SrcCommonUtils.MatchFromIff | src/plugins/nonebot_plugin_bing_chat/common/utils.py:37-47 | the pattern for one command list matches iff the message starts with some start symbol followed by some command |
| SrcCommonUtils.MatchFromSets | src/plugins/nonebot_plugin_bing_chat/common/utils.py:37-47 | that match depends only on the sets of start symbols and commands |
| SrcCommonUtils.StartsWithCommandUnion | src/plugins/nonebot_plugin_bing_chat/common/utils.py:37-43 | matching the union of command lists is matching one of them |
| SrcCommonUtils.IsConflictIff | src/plugins/nonebot_plugin_bing_chat/common/utils.py:37-47 | a message conflicts iff it starts with a start symbol followed by a chat, new-chat or history command |
| SrcCommonUtils.ProbeUsable | src/plugins/nonebot_plugin_bing_chat/common/utils.py:63-77 | a cookie file is usable iff its probe returned a reply whose `dict()` form the classifier accepts |
| SrcCommonUtils.ThrottledProbeUnusable | src/plugins/nonebot_plugin_bing_chat/common/utils.py:69-71 | a throttled probe marks the cookies unusable |
| SrcCommonUtils.FirstUsable | src/plugins/nonebot_plugin_bing_chat/common/utils.py:92-96 | the `zip` loop's choice: the first usable index within both lists, or none when no paired result is usable |
| SrcCommonUtils.SwitchToUsableCookies | src/plugins/nonebot_plugin_bing_chat/common/utils.py:80-99 | switching always ends with the flag cleared and only the current path possibly changed; a failing gather re-raises; otherwise the first usable file becomes current (`True`), or nothing changes (`False`) |
| SrcCommonUtils.FirstUsableAt | src/plugins/nonebot_plugin_bing_chat/common/utils.py:92-96 | the first usable index is found |
| SrcCommonUtils.FirstUsableNone | src/plugins/nonebot_plugin_bing_chat/common/utils.py:92-99 | with no usable result nothing is chosen |
| SrcCommonUtils.ContentsBy | src/plugins/nonebot_plugin_bing_chat/common/utils.py:107-108 | one content lookup per content type, in order |
| SrcCommonUtils.Contents | src/plugins/nonebot_plugin_bing_chat/common/utils.py:107-108 | the latest response's content per content type |
| SrcCommonUtils.HeadedAllPresent | src/plugins/nonebot_plugin_bing_chat/common/utils.py:107-132 | when every content exists and is non-empty there is one part per type: its heading followed by its content |
| SrcCommonUtils.PartsAllPresent | src/plugins/nonebot_plugin_bing_chat/common/utils.py:107-132 | the same for the contents of a response |
| SrcCommonUtils.HeadedErrExtends | src/plugins/nonebot_plugin_bing_chat/common/utils.py:107-108 | a failing content stops the loop: later types do not change the error |
| SrcCommonUtils.HeadedStep | src/plugins/nonebot_plugin_bing_chat/common/utils.py:107-132 | one iteration: an empty content is skipped, another is appended behind its heading |
| SrcCommonUtils.HeadedStepErr | src/plugins/nonebot_plugin_bing_chat/common/utils.py:107-108 | one iteration with a failing content ends with that error |
| SrcCommonUtils.ContentsPrefix | src/plugins/nonebot_plugin_bing_chat/common/utils.py:107-108 | the contents of a prefix of the types are the prefix of the contents |
| SrcCommonUtils.PartsSkipEmpty | src/plugins/nonebot_plugin_bing_chat/common/utils.py:108-109 | an empty content adds no part |
| SrcCommonUtils.PartsStopAtError | src/plugins/nonebot_plugin_bing_chat/common/utils.py:108 | a failing content after successful ones is the result's error |
| SrcCommonUtils.CollectParts | src/plugins/nonebot_plugin_bing_chat/common/utils.py:105-132 | the loop computes the headed parts of the contents |
| SrcCommonUtils.GetDisplayData | src/plugins/nonebot_plugin_bing_chat/common/utils.py:102-138 | an entry without content types gives empty text or an empty picture source even for an empty history; otherwise an empty history is an `IndexError`, and the display data are the parts of the latest response, joined by a blank line as text or by a ruled separator as a picture source |
| SrcCommonUtils.LatestDataEmpty | src/plugins/nonebot_plugin_bing_chat/common/utils.py:102-138 | the latest reply is read only inside the loop over content types: no content types gives the empty result, and an empty history with content types raises `IndexError` |
| SrcCommonUtils.SenderOf | src/plugins/nonebot_plugin_bing_chat/onebotv11/main.py:169-172 | the sender carries the user id and the nickname, or the unknown-name placeholder for an empty one |
| SrcCommonUtils.GetChatbot | src/plugins/nonebot_plugin_bing_chat/common/utils.py:143-159 | an existing client is reused; otherwise one is created from the current cookie file, or the notice is sent and the error raised, leaving no client |
| SrcCommonUtils.GetBingResponse | src/plugins/nonebot_plugin_bing_chat/common/utils.py:161-186 | the user is waiting during the question and not afterwards; a reply is returned, a failure sends its notice and raises |
| SrcCommonUtils.RefreshNoticesAsWritten | src/plugins/nonebot_plugin_bing_chat/common/utils.py:223-227 | as written, the conversation limit sends two notices and an expired session none |
| SrcCommonUtils.RefreshNotices | src/plugins/nonebot_plugin_bing_chat/common/utils.py:223-227 | as intended, each of the two refusals sends its own notice |
| SrcCommonUtils.RefreshNoticesDiffer | src/plugins/nonebot_plugin_bing_chat/common/utils.py:223-227 | the written notices miss the expired-session one and double the limit one |
| SrcCommonUtils.Dispatch | src/plugins/nonebot_plugin_bing_chat/common/utils.py:198-233 | an accepted response is stored; the conversation limit or an expired session refreshes iff auto-refresh is on; only errors outside the response branch escape |
| SrcCommonUtils.ResetSessions | src/plugins/nonebot_plugin_bing_chat/common/utils.py:209-216 | every session is cleared with the given sender, keeping its waiting flag, using the intended `clear` (see Findings; as written the first `clear` raises) |
| SrcCommonUtils.StoreResponse | src/plugins/nonebot_plugin_bing_chat/common/utils.py:189-233 | the response is stored iff the classifier accepts it, as one more conversation; other outcomes leave the history and send no notice but the refresh ones. A throttled account with auto-switch sends the account-limit notice and then: re-raises `TypeError` when the probes could not be gathered; otherwise finishes with `已切换cookies` after switching to the first usable path and, for a OneBot event, clearing every session, or with `无可用cookies` when no path is usable. Refresh notices and `clear` are the intended ones (see Findings) |
| SrcOnebotCheck.CheckIfInList | src/plugins/nonebot_plugin_bing_chat/onebotv11/check.py:12-44 | passes iff the admission rule holds; group temporary chats are refused, superusers pass, a refused group gets the blacklist or whitelist refusal, and a guild chat outside the superusers raises `TypeError` (the guild filters do not exist in the configuration) |
| SrcOnebotCheck.BlacklistIff | src/plugins/nonebot_plugin_bing_chat/onebotv11/check.py:20-28 | in blacklist mode a group is refused iff it is on the blacklist, whatever the whitelist holds |
| SrcOnebotCheck.WhitelistIff | src/plugins/nonebot_plugin_bing_chat/onebotv11/check.py:20-32 | in whitelist mode a group is refused iff it is not on the whitelist, whatever the blacklist holds |
| SrcOnebotCheck.SuperuserMonotone | src/plugins/nonebot_plugin_bing_chat/onebotv11/check.py:12-22 | making a user a superuser never turns a pass into a refusal |
| SrcOnebotCheck.CheckIfUserIsWaiting | src/plugins/nonebot_plugin_bing_chat/onebotv11/check.py:47-52 | refuses, with the is-waiting exception, exactly when the session is waiting |
| SrcOnebotUtils.DefaultGetUserData | src/plugins/nonebot_plugin_bing_chat/onebotv11/utils.py:16-27 | `setdefault`: the stored session for the QQ user, or a fresh one stored under that key; nothing else changes |
| SrcOnebotUtils.DefaultGetUserDataTwice | src/plugins/nonebot_plugin_bing_chat/onebotv11/utils.py:16-27 | asking twice gives the same session, and only that one key is added |
| SrcOnebotUtils.ReplyOut | src/plugins/nonebot_plugin_bing_chat/onebotv11/utils.py:30-35 | the content is kept at the end; a quote of the message goes in front except in guild chats |
| SrcOnebotUtils.HistoryNodesShape | src/plugins/nonebot_plugin_bing_chat/onebotv11/utils.py:38-53 | the bundle exists iff every conversation's nodes do, and then holds two nodes per conversation, in order |
| SrcOnebotUtils.ConversationNodesLength | src/plugins/nonebot_plugin_bing_chat/onebotv11/utils.py:42-51 | one conversation gives two nodes |
| SrcOnebotUtils.ConversationNodesContent | src/plugins/nonebot_plugin_bing_chat/onebotv11/utils.py:42-51 | the nodes exist iff the answer does: the user's question from the sender, then Bing's answer from the bot |
| SrcOnebotUtils.HistoryOut | src/plugins/nonebot_plugin_bing_chat/onebotv11/utils.py:38-53 | the loop builds that bundle, or fails with the first failing answer |
| SrcOnebotUtils.HistoryStepOk | src/plugins/nonebot_plugin_bing_chat/onebotv11/utils.py:41-51 | one iteration appends the question node and the answer node |
| SrcOnebotUtils.HistoryStepErr | src/plugins/nonebot_plugin_bing_chat/onebotv11/utils.py:41-51 | a failing answer is the error of the whole bundle |
| SrcOnebotUtils.DisplayListShape | src/plugins/nonebot_plugin_bing_chat/onebotv11/utils.py:71-78 | the list exists iff every entry's display data does, and then holds one message per entry, in order |
| SrcOnebotUtils.GetDisplayMessage | src/plugins/nonebot_plugin_bing_chat/onebotv11/utils.py:56-68 | the display data wrapped as a text or image message, or its error: an empty history with content types is an `IndexError`, and no content types gives an empty text or image segment |
| SrcOnebotUtils.GetDisplayMessageList | src/plugins/nonebot_plugin_bing_chat/onebotv11/utils.py:71-78 | the loop over the display entries computes that list |
| SrcOnebotUtils.Forward | src/plugins/nonebot_plugin_bing_chat/onebotv11/utils.py:81-91 | one node from the sender per display message, in order |
| SrcOnebotUtils.GetDisplayMessageForward | src/plugins/nonebot_plugin_bing_chat/onebotv11/utils.py:81-91 | the forward message of the display list, or its first error |
| SrcOnebotUtils.RuleContinueChat | src/plugins/nonebot_plugin_bing_chat/onebotv11/utils.py:94-100 | continue a chat iff the message is to the bot, replies to an indexed answer, and does not start with one of the plugin's commands |
| SrcOnebotMain.Direct | src/plugins/nonebot_plugin_bing_chat/onebotv11/main.py:133-143 | one message per display message; only the first is wrapped as a reply |
| SrcOnebotMain.SendQuoted | src/plugins/nonebot_plugin_bing_chat/onebotv11/main.py:55-61 | each notice is sent as a reply, in order, and takes one message id |
| SrcOnebotMain.SendDirect | src/plugins/nonebot_plugin_bing_chat/onebotv11/main.py:133-143 | the direct messages are sent and every new message id is indexed to the sender |
| SrcOnebotMain.SendAnswer | src/plugins/nonebot_plugin_bing_chat/onebotv11/main.py:122-145 | a failing display list sends the content error notice (response errors) or escapes; forwarding sends one forward message (not in guilds) and indexes nothing; direct sending indexes every message it sends |
| SrcOnebotMain.Fail | src/plugins/nonebot_plugin_bing_chat/onebotv11/main.py:144-145 | a response error becomes its notice; any other error escapes |
| SrcOnebotMain.Chat | src/plugins/nonebot_plugin_bing_chat/onebotv11/main.py:35-147 | depth three or more does nothing; no argument sends the help message; a list refusal is quoted (plugin errors) or escapes; switching cookies is refused; otherwise the session exists, keeps its waiting flag and gains at most this question, with at most `3 - depth` questions asked |
| SrcOnebotMain.AskBing | src/plugins/nonebot_plugin_bing_chat/onebotv11/main.py:69-102 | a waiting user is refused; a client that cannot be created is reported; otherwise exactly one question is asked and its reply returned, a failed question escaping |
| SrcOnebotMain.Converse | src/plugins/nonebot_plugin_bing_chat/onebotv11/main.py:69-147 | the waiting refusal, creation failure and failed question leave the history; an accepted reply is appended to it and its display returns normally |
| SrcOnebotMain.Conclude | src/plugins/nonebot_plugin_bing_chat/onebotv11/main.py:104-147 | an accepted response is appended and shown; a refused one never returns normally; the waiting flag is kept and the history gains at most this question |
| SrcOnebotMain.NewChat | src/plugins/nonebot_plugin_bing_chat/onebotv11/main.py:150-181 | a list refusal is quoted or escapes; otherwise the session is cleared with the event's sender by the intended `clear` (see Findings; as written it raises before any notice), `已刷新对话` is sent first, and a non-empty argument starts a chat after which the history is empty or holds just that question |
| SrcOnebotMain.History | src/plugins/nonebot_plugin_bing_chat/onebotv11/main.py:184-214 | guild chats are refused; an argument is refused; a list refusal is quoted; an empty history gets `您没有历史对话`; otherwise the history bundle is forwarded, or its error escapes; nothing is asked |
| SrcOnebotMain.MessageAll | src/plugins/nonebot_plugin_bing_chat/onebotv11/main.py:217-243 | no reply raises; a reply to an unindexed message or to a vanished session raises `KeyError`; otherwise the chat continues on the session that owns the answer |
| TelegramUtils.DefaultGetUserData | src/plugins/nonebot_plugin_bing_chat/telegram/utils.py:17-29 | `setdefault` under the Telegram key: the stored session or a fresh one for the sender's id and username |
| TelegramUtils.ReplyOut | src/plugins/nonebot_plugin_bing_chat/telegram/utils.py:32-35 | the content is sent as it is: no quote is added |
| TelegramUtils.ReplyOutLikeGuild | src/plugins/nonebot_plugin_bing_chat/telegram/utils.py:32-35 | this is the OneBot wrapping of a guild message |
| TelegramUtils.ImageNotImplemented | src/plugins/nonebot_plugin_bing_chat/telegram/utils.py:38-50 | an image entry always fails: with the display data's error, or else `NotImplementedError` |
| TelegramUtils.TextAsOnOneBot | src/plugins/nonebot_plugin_bing_chat/telegram/utils.py:38-50 | a text entry gives the same message as on OneBot |
| TelegramUtils.GetDisplayMessage | src/plugins/nonebot_plugin_bing_chat/telegram/utils.py:38-50 | the method computes that display message: an empty history with content types is an `IndexError`, and no content types gives an empty text, or `NotImplementedError` for an image entry |
| TelegramUtils.DisplayListShape | src/plugins/nonebot_plugin_bing_chat/telegram/utils.py:53-60 | the list exists iff every entry's message does, so no entry is an image, and it holds one message per entry |
| TelegramUtils.GetDisplayMessageList | src/plugins/nonebot_plugin_bing_chat/telegram/utils.py:53-60 | the loop computes that list |
| TelegramMain.SendQuoted | src/plugins/nonebot_plugin_bing_chat/telegram/main.py:56-59 | notices are sent as they are, in order |
| TelegramMain.SendDirect | src/plugins/nonebot_plugin_bing_chat/telegram/main.py:115-125 | the display messages are sent unwrapped and every new message id is indexed to the Telegram sender |
| TelegramMain.SendAnswer | src/plugins/nonebot_plugin_bing_chat/telegram/main.py:108-129 | forwarding raises `NotImplementedError`; a failing display list sends the content error notice or escapes; otherwise every message is sent and indexed |
| TelegramMain.Chat | src/plugins/nonebot_plugin_bing_chat/telegram/main.py:31-129 | as on OneBot but without the list check and the switching guard: depth three or more does nothing, no argument sends help, otherwise the session exists, keeps its waiting flag, gains at most this question, and nothing is deleted |
| TelegramMain.AskBing | src/plugins/nonebot_plugin_bing_chat/telegram/main.py:55-85 | the waiting refusal, client creation and one question, as on OneBot, without deleting the waiting notice |
| TelegramMain.Converse | src/plugins/nonebot_plugin_bing_chat/telegram/main.py:55-129 | a waiting user is refused with the history unchanged; an accepted reply is appended |
| TelegramMain.Conclude | src/plugins/nonebot_plugin_bing_chat/telegram/main.py:90-129 | an accepted response is appended; a refused one never returns normally; the history gains at most this question |
| TelegramMain.NewChat | src/plugins/nonebot_plugin_bing_chat/telegram/main.py:132-157 | without any list check, the session is cleared with the Telegram sender by the intended `clear` (see Findings; as written it raises before any notice), `已刷新对话` is sent first, and a non-empty argument starts a chat after which the history is empty or holds just that question |
| LegacyExceptions.Parent | nonebot_plugin_bing_chat/exceptions.py:1-26 | every exception class but the base has a parent exactly one level shallower, so the hierarchy is a tree rooted at `BaseBingChatException` |
| LegacyExceptions.AllDeriveFromBase | nonebot_plugin_bing_chat/exceptions.py:1-26 | every exception of the earliest package is a subclass of `BaseBingChatException` |
| LegacyExceptions.Branches | nonebot_plugin_bing_chat/exceptions.py:5-26 | group-not-in-list, reach-limit and is-waiting are permission refusals; the response error is a network error |
| LegacyExceptions.BranchesShareOnlyBase | nonebot_plugin_bing_chat/exceptions.py:5-26 | no class is both a permission refusal and a network error |
| LegacyExceptions.AncestorsOrdered | nonebot_plugin_bing_chat/exceptions.py:1-26 | two ancestors of one class are always comparable (single inheritance) |
| CommonExceptions.Parent | nonebot_plugin_bing_chat/common/exceptions.py:17-50 | every class but the base has a parent exactly one level shallower |
| CommonExceptions.LimitsAreResponses | nonebot_plugin_bing_chat/common/exceptions.py:45-50 | both limit exceptions are response exceptions, as the hierarchy comment at lines 1-14 draws it |
| CommonExceptions.ResponseIsNetwork | nonebot_plugin_bing_chat/common/exceptions.py:37-42 | the response exception is a network exception, and every class derives from the base |
| CommonExceptions.RefusalsArePermissionDenied | nonebot_plugin_bing_chat/common/exceptions.py:21-34 | reach-limit, group-not-in-list and is-waiting are permission refusals |
| CommonExceptions.BranchesDisjoint | nonebot_plugin_bing_chat/common/exceptions.py:1-14 | the permission and network branches share no class, so one `except` clause never catches the other branch |
| CommonExceptions.SubclassTransitive | nonebot_plugin_bing_chat/common/exceptions.py:17-50 | the subclass relation is transitive |
| LegacyConfig.ListValidator | nonebot_plugin_bing_chat/config.py:21-27 | `list(v)` keeps a list as it is and splits a string into its one-character strings, in order |
| LegacyConfig.ConfigOf | nonebot_plugin_bing_chat/config.py:11-27 | an absent command list takes its default (`chat`; `chat-new`, `刷新对话`; `chat-history`), a given chat or new-chat value is exactly its `list(v)` (a list as is, a string as its letters), a given history value is kept as is (it has no validator), and the filter defaults to an empty blacklist |
| LegacyConfig.ListValidatorFacts | nonebot_plugin_bing_chat/config.py:21-23 | the validator is idempotent; a bare string `chat` becomes four one-letter commands, where the current validator keeps `{chat}` |
| LegacyCheck.Decision | nonebot_plugin_bing_chat/check.py:15-38 | a group temporary chat is refused; a superuser passes with the skip notice; any other success is the passed notice |
| LegacyCheck.DecisionAgrees | nonebot_plugin_bing_chat/check.py:15-34 | the earliest check refuses exactly when the older OneBot list check refuses, with the same exception |
| LegacyCheck.UserCounters.constructor | nonebot_plugin_bing_chat/check.py:15 | a counter dictionary starts with the given fields |
| LegacyCheck.PermissionsCheck | nonebot_plugin_bing_chat/check.py:15-38 | the permission verdict is `Decision`; a refusal or superuser pass leaves the counters alone; a plain pass with non-empty counters adds one to `bingchat_count`, and raises `KeyError` when that key is missing |
| LegacyUtils.RemoveQuoteStr | nonebot_plugin_bing_chat/utils.py:37-38 | removing single-digit citation markers never lengthens the text |
| LegacyUtils.KeepsPlain | nonebot_plugin_bing_chat/utils.py:37-38 | text without `[` passes through unchanged in front of the rest |
| LegacyUtils.DropsSingleDigit | nonebot_plugin_bing_chat/utils.py:37-38 | a `[^d^]` marker with one digit is dropped, as the later lazy pattern also does |
| LegacyUtils.KeepsMultiDigit | nonebot_plugin_bing_chat/utils.py:37-38 | a marker with two or more digits is kept by this pattern but removed by the later `\d+?` pattern |
| LegacyUtils.Reply | nonebot_plugin_bing_chat/utils.py:19-20 | the raw reply lookup agrees with the later `content_answer`: a found string is its answer after marker removal, a missing key is the invalid-response error, a type error stays a type error |
| LegacyUtils.HelpMessage | nonebot_plugin_bing_chat/utils.py:32-35 | the help text is exactly the three help lines joined by newlines |
| LegacyDataModel.Visit | nonebot_plugin_bing_chat/common/dataModel.py:22-35 | one path segment of `deep_get`: a plain key never escapes as an exception; a present key or in-range index moves on, an out-of-range index stops with `None`; only a `TypeError` can escape |
| LegacyDataModel.DeepGet | nonebot_plugin_bing_chat/common/dataModel.py:22-36 | the loop over the path's segments computes the recursive specification `DeepGetSpec` |
| LegacyDataModel.Keys | nonebot_plugin_bing_chat/common/dataModel.py:23 | a dotted path without indexes splits into plain segments, one per key |
| LegacyDataModel.DeepGetPlainKeys | nonebot_plugin_bing_chat/common/dataModel.py:31-36 | along plain keys `deep_get` is the Python subscript walk with every failure turned into `None` |
| LegacyDataModel.NamedIndexOnListEscapes | nonebot_plugin_bing_chat/common/dataModel.py:24-30 | a named index `key[i]` on a list raises `TypeError` (only `KeyError`/`IndexError` are caught there), while a plain key on a list yields `None` |
| LegacyDataModel.Classify | nonebot_plugin_bing_chat/common/dataModel.py:96-125 | the field `raw: Dict[str, Any]` first goes through `dict(v)` with `str` keys, so a `None` key or a value with no mapping form fails validation; an accepted response is that mapping |
| LegacyDataModel.RawValidator | nonebot_plugin_bing_chat/common/dataModel.py:99-125 | an accepted response is the value itself and has a non-`None` second text; `Throttled` is the account limit; anything but `Throttled`/`Success` is the unknown error; a conversation-limit refusal carries two non-`None` counters with `num > max`, and a `Success` reply with such counters is that refusal; within the limit a non-`None` hidden text is the hidden-text refusal |
| LegacyDataModel.AcceptsIff | nonebot_plugin_bing_chat/common/dataModel.py:103-125 | `rawValidator` returns the value iff the result is `Success`, the counters are not over the limit (or one is `None`), the hidden text is `None` and the text is read and not `None` |
| LegacyDataModel.NullKeyRefused | nonebot_plugin_bing_chat/common/dataModel.py:97 | a pair with a `None` key fails this model's `str` key type but reaches the later untyped `dict` field as an unknown reply; an empty list is an unknown reply |
| LegacyDataModel.CountersNeverRaise | nonebot_plugin_bing_chat/common/dataModel.py:101-109 | the three plain-key lookups of the classifier never raise |
| LegacyDataModel.NullTextIsUnknown | nonebot_plugin_bing_chat/common/dataModel.py:120-125 | a successful reply whose text is `null` is the unknown-response error |
| LegacyDataModel.ThreeMessagesAcceptedHere | nonebot_plugin_bing_chat/common/dataModel.py:116-122 | a reply with three messages is accepted by this classifier |
| LegacyDataModel.ThreeMessagesRejectedElsewhere | nonebot_plugin_bing_chat/common/data_model.py:143-180 | the same reply is the unknown-response error for the two pattern-matching classifiers, whose list patterns demand exactly two messages |
| LegacyDataModel.ThreeMessagesAccepted | nonebot_plugin_bing_chat/common/dataModel.py:116-122 | the three classifiers disagree on that reply: accepted here, unknown in both later ones |
| LegacyDataModel.Required | nonebot_plugin_bing_chat/common/dataModel.py:131-135 | a found non-`None` value is passed on, a `None` becomes the invalid-response error |
| LegacyDataModel.ContentSimple | nonebot_plugin_bing_chat/common/dataModel.py:128-135 | the second message's text with markers removed, or the invalid-response error when it is missing |
| LegacyDataModel.ContentWithReference | nonebot_plugin_bing_chat/common/dataModel.py:137-144 | the text of `body[0]` of the first card with markers removed; a missing or `None` text is the invalid-response error, and a lookup that raises escapes with its own error |
| LegacyDataModel.NullCardEscapes | nonebot_plugin_bing_chat/common/dataModel.py:137-144 | a `None` card makes `body[0]` raise `TypeError`, which escapes instead of becoming the invalid-response error |
| LegacyDataModel.ContentDetail | nonebot_plugin_bing_chat/common/dataModel.py:146-148 | the detail content is always empty |
| LegacyDataModel.AdaptiveCards | nonebot_plugin_bing_chat/common/dataModel.py:150-157 | the card body when found and not `None`, else the invalid-response error |
| LegacyDataModel.AcceptedHasSimpleContent | nonebot_plugin_bing_chat/common/dataModel.py:120-132 | every accepted response with a string text has a simple content, namely that text without markers |
| LegacyDataModel.ConfigInit | nonebot_plugin_bing_chat/common/dataModel.py:44-93 | without `bingchat_command_start` the constructor reads `command_start` and raises `KeyError` when both are missing; each of the three command sets is its field's validated value (or the default when absent), and an empty value for any of them is refused |
| DataModel.Classify | nonebot_plugin_bing_chat/common/data_model.py:134-180 | the field `raw: dict` first goes through `dict(v)`: a value with no mapping form fails validation; an accepted response is the resulting mapping |
| DataModel.RawValidator | nonebot_plugin_bing_chat/common/data_model.py:136-180 | an accepted response is the value itself and has two messages; `Throttled` is the account limit; a result other than `Throttled`/`Success` is unknown; this validator has no invalid-session or offensive case; a hidden-text refusal carries the reply's `hiddenText`, and a `Success` two-message reply within its counters with a `hiddenText` is that refusal; a `Success` reply over its counters is the conversation limit |
| DataModel.AcceptsIff | nonebot_plugin_bing_chat/common/data_model.py:136-180 | the match returns the value iff it is a `Success` reply within its counters, with two messages, the second carrying `text` and no `hiddenText` |
| DataModel.NewerAcceptedIsAccepted | nonebot_plugin_bing_chat/common/data_model.py:134-180 | every response the current classifier accepts, this one accepts too, with the same mapping |
| DataModel.AcceptedDiffersOnlyOnOffense | nonebot_plugin_bing_chat/common/data_model.py:156-176 | a response this classifier accepts is accepted by the current one unless the reply is marked offensive |
| DataModel.OlderGapsExample | nonebot_plugin_bing_chat/common/data_model.py:136-180 | an offensive reply is accepted here and refused by the current classifier; `InvalidSession` is the unknown error here |
| DataModel.AdaptiveCards | nonebot_plugin_bing_chat/common/data_model.py:213-219 | the card body found by subscripting, or the translated lookup error |
| DataModel.ContentReference | nonebot_plugin_bing_chat/common/data_model.py:201-207 | the first card body's text with markers removed, or the translated lookup error |
| DataModel.SuggestedQuestions | nonebot_plugin_bing_chat/common/data_model.py:221-230 | the loop collecting each suggested response's `text` computes the current package's suggested-question list, errors included |
| DataModel.Strings | nonebot_plugin_bing_chat/common/data_model.py:209-211 | the suggestions can be joined only when every one is a string, and then they are kept in order |
| DataModel.ContentSuggestedQuestion | nonebot_plugin_bing_chat/common/data_model.py:209-211 | a failing suggestion lookup is passed on as is |
| DataModel.SuggestedQuestionLines | nonebot_plugin_bing_chat/common/data_model.py:209-230 | when every suggestion is a one-line string, splitting the joined content at newlines gives the suggestions back |
| DataModel.GetContent | nonebot_plugin_bing_chat/common/data_model.py:182-191 | each of the three content types selects its property; any other type gives the empty string |
| DataModel.UnknownContentTypeDiffers | nonebot_plugin_bing_chat/common/data_model.py:182-191 | an unknown content type is empty here but a `TypeError` in the current package |
| DataModel.StrSet | nonebot_plugin_bing_chat/common/data_model.py:104-108 | `set(v)` of a list of strings contains every element |
| DataModel.CommandValidator | nonebot_plugin_bing_chat/common/data_model.py:104-120 | a falsy value is refused; a non-empty bare string becomes the set of its characters |
| DataModel.BareCommandSplit | nonebot_plugin_bing_chat/common/data_model.py:104-108 | a bare string `chat` becomes the commands `c`, `h`, `a`, `t` |
| DataModel.DisplayModeField | nonebot_plugin_bing_chat/common/data_model.py:122-126 | an explicit display mode never validates: the validator turns it into a list, which is not one of the two literals |
| DataModel.DisplayContentTypesField | nonebot_plugin_bing_chat/common/data_model.py:27-58 | a validated list holds only the thirty allowed display literals |
| DataModel.Validate | nonebot_plugin_bing_chat/common/data_model.py:63-131 | missing `superusers` or `command_start` is an error, so is giving `bingchat_display_mode`, a boolean setting pydantic cannot read as a boolean, or a filter mode other than `whitelist`/`blacklist`; the waiting and auto-refresh flags are the given value read as pydantic reads a boolean, or `True` |
| DataModel.PyBool | nonebot_plugin_bing_chat/common/data_model.py:76 | pydantic's boolean reading: booleans as they are, `0` and `1`, and the words `1 on t true y yes` / `0 off f false n no` in any case; anything else is refused |
| DataModel.PyBoolWords | nonebot_plugin_bing_chat/common/data_model.py:76 | `"Yes"` reads as true and `"OFF"` as false, `1` as true; `2` and `"maybe"` are refused |
| DataModel.ConfigInitAsWritten | nonebot_plugin_bing_chat/common/data_model.py:89-102 | the constructor as written: `bingchat_show_detail` always makes validation fail (it writes a list into the display-mode field); otherwise `bingchat_show_is_waiting` becomes the waiting flag as pydantic reads a boolean |
| DataModel.ConfigInit | nonebot_plugin_bing_chat/common/data_model.py:89-102 | the constructor as intended: `bingchat_show_detail` selects `text.answer&reference` or `text.answer` as the display content types, `bingchat_show_is_waiting` sets the waiting flag as pydantic reads it, and a driver configuration with `bingchat_show_detail=True` validates to the defaults with `text.answer&reference` |
| DataModel.ValidateShowDetail | nonebot_plugin_bing_chat/common/data_model.py:63-131 | the driver settings plus `bingchat_display_content_types=["text.answer&reference"]` validate to the defaults with that content type |
| DataModel.UserData.constructor | nonebot_plugin_bing_chat/common/data_model.py:248-258 | a new session has no client, no message ids, is not waiting, has counted nothing and has no history |
| CommonUtils.PluginData.constructor | nonebot_plugin_bing_chat/common/utils.py:56-75 | a rotation state starts with the given cookie files and is not switching |
| CommonUtils.UnusableProbes | nonebot_plugin_bing_chat/common/utils.py:39-53 | a throttled probe reply, one with no mapping form, or a probe that raised marks the cookies unusable |
| CommonUtils.UsableWiderThanCurrent | nonebot_plugin_bing_chat/common/utils.py:39-53 | every probe the current package counts usable is usable here too, and an offensive reply is usable only here |
| CommonUtils.SwitchToUsableCookies | nonebot_plugin_bing_chat/common/utils.py:56-75 | switching always ends with the flag cleared and the list unchanged; a failing gather leaves the current file; otherwise the first usable file becomes current (`True`), or nothing changes (`False`) |
| OnebotCheck.CheckIfInList | nonebot_plugin_bing_chat/onebotv11/check.py:16-34 | passes iff the message is not a group temporary chat and the user is a superuser, or it is not a group chat, or the group passes the blacklist/whitelist filter |
| OnebotCheck.AgreesWithCurrent | nonebot_plugin_bing_chat/onebotv11/check.py:16-34 | outside guild chats it is the current check; in a guild chat this one passes where the current one refuses |
| OnebotCheck.CheckIfUserIsWaiting | nonebot_plugin_bing_chat/onebotv11/check.py:37-42 | refuses, with the is-waiting exception, exactly when the session is waiting |
| OnebotUtils.Heading | nonebot_plugin_bing_chat/onebotv11/utils.py:77-86 | the heading of a content type is the current package's text heading |
| OnebotUtils.PartsOnePerType | nonebot_plugin_bing_chat/onebotv11/utils.py:74-86 | the parts exist iff every content lookup succeeds, and then there is one part per content type: its heading followed by its content (an empty content is kept) |
| OnebotUtils.PartsAgreeWithoutEmpty | nonebot_plugin_bing_chat/onebotv11/utils.py:74-86 | when no content is empty, the parts are those of the current `get_display_data` |
| OnebotUtils.EmptyContentKeepsHeading | nonebot_plugin_bing_chat/onebotv11/utils.py:74-86 | an empty content leaves a bare heading here, where the current code drops the part |
| OnebotUtils.Assemble | nonebot_plugin_bing_chat/onebotv11/utils.py:87-95 | no parts give an empty message; text parts are joined by a blank line into one text segment, image parts by a ruled separator into one image |
| OnebotUtils.CollectHeaded | nonebot_plugin_bing_chat/onebotv11/utils.py:74-86 | the loop over the content types computes the part list `Parts` describes |
| OnebotUtils.GetDisplayMessage | nonebot_plugin_bing_chat/onebotv11/utils.py:67-95 | the display message is the assembled parts of the latest response, or the error of the first failing content; no content types gives an empty message even for an empty history, and an empty history with content types is an `IndexError` |
| OnebotUtils.DisplayListShape | nonebot_plugin_bing_chat/onebotv11/utils.py:98-105 | the list exists iff every entry's message exists, and then holds one message per entry, in order |
| OnebotUtils.GetDisplayMessageList | nonebot_plugin_bing_chat/onebotv11/utils.py:98-105 | the loop over the display entries computes that list |
| OnebotUtils.GetDisplayMessageForward | nonebot_plugin_bing_chat/onebotv11/utils.py:108-118 | the forward message wraps each display message in a node from the sender, or passes on the first error |
| OnebotMain.Sessions.constructor | nonebot_plugin_bing_chat/onebotv11/main.py:26 | the session store starts empty |
| OnebotMain.Quote | nonebot_plugin_bing_chat/onebotv11/main.py:41 | a reply is a quote of the triggering message followed by the text; outside guilds it is the current `reply_out` |
| OnebotMain.GetUserDataSafe | nonebot_plugin_bing_chat/onebotv11/main.py:43 | the lookup returns the stored session, or stores and returns a fresh one for the sender; nothing else in the store changes |
| OnebotMain.AskBing | nonebot_plugin_bing_chat/onebotv11/main.py:46-77 | a waiting user gets the is-waiting notice; a client that cannot be created gets that notice and the error; otherwise the client is kept or created, one question is asked, the asking notice is sent and deleted, and a failed question gets its notice and the error |
| OnebotMain.SendAnswer | nonebot_plugin_bing_chat/onebotv11/main.py:95-106 | the simple content is sent as a quote; a response error gets its notice; any other error escapes |
| OnebotMain.RefusalNotice | nonebot_plugin_bing_chat/onebotv11/main.py:84-93 | only plugin exceptions get a notice; the account limit asks to contact the admin; the conversation limit announces the refresh or asks to refresh |
| OnebotMain.Chat | nonebot_plugin_bing_chat/onebotv11/main.py:29-108 | no argument gives the help message; a refusal of the list check is sent as a quote; otherwise the user's session exists afterwards, its waiting flag is as before, and its history gained at most this question; sent messages only grow |
| OnebotMain.Conclude | nonebot_plugin_bing_chat/onebotv11/main.py:79-108 | an accepted response is appended to the history and asks no more; a refused one never returns normally and leaves the history, unless the auto-refresh restarted it with at most this question |
| OnebotMain.Refuse | nonebot_plugin_bing_chat/onebotv11/main.py:84-93 | a refusal sends its notice or re-raises; the conversation limit with auto-refresh announces it and restarts the conversation |
| OnebotMain.NewChat | nonebot_plugin_bing_chat/onebotv11/main.py:111-132 | a refusal is sent as a quote; otherwise the session is reset (new sender, no client, count zero, empty history), `已刷新对话` is sent, and a non-empty argument starts a chat |
| OnebotMain.AsCurrent | nonebot_plugin_bing_chat/onebotv11/main.py:155-156 | an older conversation is read as a current one with the same question and reply |
| OnebotMain.HistoryBundleShape | nonebot_plugin_bing_chat/onebotv11/main.py:155-161 | the bundle exists iff every answer does, and then holds, per conversation, the user's question node and the Bing answer node |
| OnebotMain.History | nonebot_plugin_bing_chat/onebotv11/main.py:135-161 | an argument is refused; a list-check refusal is quoted; an empty history gets `您没有历史对话`; otherwise the bundle is sent as a forward message (not in a guild), or its error escapes |
| Json.Subscript | src/plugins/nonebot_plugin_bing_chat/common/data_model.py:230-233 | Python's `d[k]` on decoded JSON: a present key or in-range index is found; a missing key is `KeyError`; subscripting a scalar is `TypeError` |
| Json.WalkAppend | src/plugins/nonebot_plugin_bing_chat/common/data_model.py:230-233 | a chain of subscripts splits at any point: the walk of `p + q` is the walk of `q` from where `p` ends, and a failure of `p` is final |
| Json.Field | src/plugins/nonebot_plugin_bing_chat/common/data_model.py:157-214 | a key in a mapping pattern matches iff the value is an object holding that key, and then it is what subscripting finds |
| Text.JoinLength | src/plugins/nonebot_plugin_bing_chat/common/utils.py:136 | `sep.join(parts)` is as long as the parts plus one separator between each two |
| Text.SplitAnySound | src/plugins/nonebot_plugin_bing_chat/common/data_model.py:135 | `re.split` on a character class gives one more piece than there are separators, the pieces hold no separator, and together they are the text without its separators |
| Text.SplitJoin | src/plugins/nonebot_plugin_bing_chat/common/data_model.py:235-243 | splitting a `'\n'.join` of separator-free parts gives the parts back |
| Errors.CollectShape | src/plugins/nonebot_plugin_bing_chat/onebotv11/utils.py:71-78 | a loop that appends one result per element and stops at the first exception succeeds iff every element does, and then holds their results in order |
| Errors.CollectPairsShape | src/plugins/nonebot_plugin_bing_chat/onebotv11/utils.py:38-53 | a loop that appends two items per element holds, at positions `2i` and `2i+1`, the pair of element `i` |
| Effects.World.Send | src/plugins/nonebot_plugin_bing_chat/onebotv11/main.py:138-143 | sending appends the message and returns a fresh message id; nothing else changes |
| Effects.World.Delete | src/plugins/nonebot_plugin_bing_chat/onebotv11/main.py:101-102 | deleting records the id; nothing else changes |
| Effects.World.Ask | src/plugins/nonebot_plugin_bing_chat/common/utils.py:173-176 | asking consumes the next reply (none left means the ask raises) and counts the question |

## Left out

- The Bing client itself (EdgeGPT `Chatbot` construction, `ask`, `close`). A question's outcome is the next entry of `Effects.World.replies`, client creation failing is `Effects.World.createFails`, and a cookie probe's outcome is a reply or `None`.
- The cookie probes' fan-out. `asyncio.gather` is handed a single generator, so the probes do not run as written. The model takes the gathered results as an input, `None` when gathering raises, and keeps the clear-the-flag-then-re-raise path.
- Sending, deleting and forwarding messages are records in `Effects.World`. Message segments are abstract records (`Messages`), and platform formatting is not modelled.
- `md_to_pic`. An image part is modelled as its markdown source, not as a rendered picture.
- Logging, `print` and `create_log`. They have no effect on the outcome.
- Plugin setup: `init()` cookie-directory scanning, matcher registration, the adapter import switch and the weekly log-deletion job.
- The text of `HELP_MESSAGE`, which depends on set iteration order. It is a parameter (`help`) of the handlers.
- `last_time`. It is evaluated once at class definition and is passed in as an opaque integer.
- Concurrency. Each handler runs to completion before the next one starts. Interleaving at `await` points between the waiting check and setting the flag is not captured.
- The citation pattern's `\d`, which is modelled as ASCII digits. Python's `\d` also matches other Unicode digits.
- The command-conflict regular expression is modelled as a prefix test. This holds for start symbols and commands without regex metacharacters, since the source splices them into the pattern unescaped.
- Exception message texts. A refusal is identified by its exception value, and a notice by its fixed leading text. The `\n{exc}` suffix is not modelled.
- Python floats and `str()` of nested containers. JSON numbers are integers, and the counters' text is their decimal form.
- The guild filter of the current list check. It tests a `dict` for membership in a `set`, so it always raises `TypeError`, and the model raises it for every guild message from a non-superuser.
- The earliest `nonebot_plugin_bing_chat/__init__.py` handlers and `replyContent` in `nonebot_plugin_bing_chat/utils.py`. They call members that do not exist (`content_simple` on a class without it, `len(user_data)`). The earliest `permissionsCheck` is modelled on a dictionary of counters, which is evidently what it subscripts.
- The older OneBot handlers call `CheckIfInList`, `CheckIfUserIsWaitingForResponse`, `getUserDataSafe`, `replyOut`, `historyOut` and `helpMessage`, which their imports do not provide. Each is modelled by the helper of the same package it evidently means. The same handlers read `sender.nickname` where the current `Sender` has `user_name`, and they build `Conversation(ask, reply)` from the older data model.
- The older `nonebot_plugin_bing_chat/common/__init__.py` imports `PluginConfig` and `PluginData` from its `data_model.py`, which defines neither (its configuration class is `Config`). So the `plugin_config` and `plugin_data` that the older `common/utils.py` reads cannot be imported as written. CommonUtils.PluginData stands for the missing class with the current package's `PluginData` shape, and the older configuration is read as the older `Config`.
- The earliest `nonebot_plugin_bing_chat/check.py` imports `plugin_config` from `utils.py`, which does not define it, and subscripts it like a dictionary. LegacyCheck.Decision and LegacyCheck.PermissionsCheck read the settings of the earliest `config.py` (`LegacyConfig.Config`) instead.
- Command arguments are modelled by their plain text (`arg: string`), while the handlers test the `Message` itself for truthiness and ask with `arg.extract_plain_text()`. An argument made only of non-text segments (an image alone) is truthy in the source, so a chat asks with the prompt `""` and the older history command refuses it. In the model the argument is `""`, so a chat sends the help text and the older history command accepts it. This affects SrcOnebotMain.Chat, SrcOnebotMain.NewChat, TelegramMain.Chat, TelegramMain.NewChat, OnebotMain.Chat, OnebotMain.NewChat and OnebotMain.History.
- SrcDataModel.PyInt parses only ASCII digits with an optional sign. Python's `int()` also accepts surrounding whitespace, `_` separators and other Unicode digits.
- The older `UserData.conversation_count` is reset but never incremented, so only the reset is modelled.
- OnebotMain.Chat: the auto-refresh of the older handlers recurses with no depth bound. The model proves termination from the fact that each re-entry consumes one backend reply. With an endless supply of conversation-limit replies the source would recurse forever.
- The sender-mismatch branch of `bingchat_message_all` only logs, so it is not modelled.
- `telegram/main.py` imports `check_if_user_is_waiting_for_response` from `common/utils.py`, which does not define it, so the module fails to import as written. The Telegram handlers are modelled with the current OneBot waiting check, which is evidently the one meant.
- SrcCommonUtils.Contents only states the number of contents. Each content's value is stated by SrcCommonUtils.ContentsBy, which it instantiates.
- LegacyDataModel.ConfigInit: states only the command fields. The required `superusers` (nonebot_plugin_bing_chat/common/dataModel.py:45) and the boolean, style and filter fields are not checked, so an input without `superusers` is `Ok` here and a ValidationError in pydantic.
- SrcOnebotMain.Conclude: for a refused response it states only that the handler does not return normally and that the history gains at most this question. Which notice is sent is stated by SrcCommonUtils.StoreResponse and SrcCommonUtils.Dispatch.
- TelegramMain.Chat, TelegramMain.Converse and TelegramMain.Conclude state the session and history outcomes but not the notices sent on each refusal. Those match the OneBot handlers except for the unwrapped replies.
- SrcDataModel.PyGreater: the order of a boolean against a number (`True` as `1`) and of mixed operand types other than `None` and mappings is computed but not stated in a contract.
- SrcDataModel.AdaptiveCards: a mapping body gives its keys in an unspecified order, where Python gives them in insertion order; JSON objects here keep no key order.
- Json.AsDict: a list element that is itself a two-key mapping is refused, where Python pairs its keys in insertion order. Pairs whose key is not a string (numbers, booleans) are accepted but their key is dropped, and nothing in the model reads such keys.
- DataModel.Validate: the elements of `superusers` and `command_start` are not checked, and `bingchat_priority`, `bingchat_plugin_directory`, `bingchat_conversation_style` and the group filter sets are not validated. pydantic reports all errors together, while the model returns the first one it finds.
- An empty `command_start` makes the conflict pattern accept a bare command name, while the model's prefix test (SrcCommonUtils.MatchFrom) with no start symbols accepts nothing.
- `deep_get` path strings are modelled as already split into segments, each a plain key or a key with one index (`LegacyDataModel.Segment`). The regular-expression parsing of each dotted part is not modelled, so a part such as `x[0][1]`, which Python reads as the name `x[0]` with index 1, has no counterpart.
- DataModel.ContentSuggestedQuestion: only the error path is stated here. The joined lines are stated by DataModel.SuggestedQuestionLines.

## Findings

| source | as written | input that shows it | evidently intended | confidence | as-written member | corrected member |
|---|---|---|---|---|---|---|
| src/plugins/nonebot_plugin_bing_chat/common/data_model.py:314-322 | `clear` assigns `first_ask_message_id` and `last_reply_message_id`, which `UserData` does not declare, so pydantic raises before the client and history are reset | new-chat on a session holding one conversation: the conversation survives | reset the sender, drop the client and empty the history | medium, not executed | SrcDataModel.UserData.ClearAsWritten, SrcDataModel.ClearAsWrittenKeepsHistory | SrcDataModel.UserData.Clear |
| src/plugins/nonebot_plugin_bing_chat/common/utils.py:223-227 | both `isinstance` tests name `BingChatConversationReachLimitException` | an `InvalidSession` reply with auto-refresh on gets no notice; a conversation-limit reply gets both notices | the second test names `BingChatInvalidSessionException`, so each refusal gets its own notice | high, not executed | SrcCommonUtils.RefreshNoticesAsWritten, SrcCommonUtils.RefreshNoticesDiffer | SrcCommonUtils.RefreshNotices |
| nonebot_plugin_bing_chat/common/data_model.py:89-102 | `bingchat_show_detail` is mapped onto `bingchat_display_mode`, a `'direct'/'forward'` literal, as a list of `text-…` names | `Config(bingchat_show_detail=True, …)` fails validation | map it onto `bingchat_display_content_types` as `['text.answer&reference']` or `['text.answer']` | medium, not executed | DataModel.ConfigInitAsWritten | DataModel.ConfigInit |
