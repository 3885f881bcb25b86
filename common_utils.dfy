/** The cookie rotation of the older package
    (nonebot_plugin_bing_chat/common/utils.py). Its command-conflict test
    builds the same regular expression as the current package and is
    modelled by SrcCommonUtils.IsConflict. */
module CommonUtils {
  import opened Json
  import opened Errors
  import DataModel
  import SrcDataModel
  import SrcCommonUtils

  /** The rotation state of `plugin_data`. */
  class PluginData {
    var cookiesFilePathList: seq<string>
    var currentCookiesFilePath: string
    var isSwitchingCookies: bool

    constructor (paths: seq<string>, current: string)
      ensures cookiesFilePathList == paths && currentCookiesFilePath == current && !isSwitchingCookies
    {
      cookiesFilePathList := paths;
      currentCookiesFilePath := current;
      isSwitchingCookies := false;
    }
  }

  /** `check_cookies_usable` on the probe's outcome: the reply to `Hello`,
      or `None` when asking raised. Only a reply this package's classifier
      accepts makes the cookies usable. */
  function ProbeUsable(reply: Option<Json>): bool
  {
    reply.Some? && DataModel.Classify(reply.value).Accepted?
  }

  /** A throttled probe, or one whose reply `dict()` cannot turn into a
      mapping, is not usable. */
  lemma UnusableProbes(reply: Json)
    requires SrcDataModel.ResultValue(reply) == Some(SrcDataModel.Throttled) || AsDict(reply, false).None?
    ensures !ProbeUsable(Some(reply))
    ensures !ProbeUsable(None)
  {
  }

  /** Every probe the current package finds usable is usable here too, and
      an offensive reply is usable only here. */
  lemma UsableWiderThanCurrent(reply: Option<Json>)
    ensures SrcCommonUtils.ProbeUsable(reply) ==> ProbeUsable(reply)
    ensures ProbeUsable(Some(DataModel.OffensiveReply())) && !SrcCommonUtils.ProbeUsable(Some(DataModel.OffensiveReply()))
  {
    if reply.Some? && SrcCommonUtils.ProbeUsable(reply) {
      SrcDataModel.ClassifyAcceptsIff(reply.value);
      DataModel.NewerAcceptedIsAccepted(reply.value);
    }
    DataModel.OlderGapsExample();
    SrcDataModel.ClassifyAcceptsIff(DataModel.OffensiveReply());
  }

  /** `switch_to_usable_cookies`, given what probing all paths gave: `None`
      when gathering the probes raised (the error is re-raised), otherwise one
      result per path. The first usable path in pool order becomes current;
      the flag is raised on entry and lowered on every way out. */
  method SwitchToUsableCookies(data: PluginData, gathered: Option<seq<bool>>) returns (r: Result<bool>)
    modifies data
    ensures !data.isSwitchingCookies
    ensures data.cookiesFilePathList == old(data.cookiesFilePathList)
    ensures gathered.None? ==> r == Err(PyTypeError) && data.currentCookiesFilePath == old(data.currentCookiesFilePath)
    ensures gathered.Some? ==>
              match SrcCommonUtils.FirstUsable(gathered.value, |data.cookiesFilePathList|)
              case Some(k) => r == Ok(true) && data.currentCookiesFilePath == data.cookiesFilePathList[k]
              case None => r == Ok(false) && data.currentCookiesFilePath == old(data.currentCookiesFilePath)
  {
    data.isSwitchingCookies := true;
    if gathered.None? {
      data.isSwitchingCookies := false;
      return Err(PyTypeError);
    }
    var results := gathered.value;
    var paths := data.cookiesFilePathList;
    var i := 0;
    while i < |paths| && i < |results|
      invariant 0 <= i <= |paths| && i <= |results| && data.cookiesFilePathList == paths
      invariant forall j :: 0 <= j < i ==> !results[j]
      invariant data.currentCookiesFilePath == old(data.currentCookiesFilePath)
    {
      if results[i] {
        data.currentCookiesFilePath := paths[i];
        data.isSwitchingCookies := false;
        SrcCommonUtils.FirstUsableAt(results, |paths|, i);
        return Ok(true);
      }
      i := i + 1;
    }
    data.isSwitchingCookies := false;
    SrcCommonUtils.FirstUsableNone(results, |paths|);
    return Ok(false);
  }
}
