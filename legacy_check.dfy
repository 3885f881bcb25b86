/** The earliest admission check (nonebot_plugin_bing_chat/check.py): the
    group filter, followed by a per-user request counter. */
module LegacyCheck {
  import opened Errors
  import opened Messages
  import SrcDataModel
  import SrcOnebotCheck
  import OnebotCheck
  import LegacyConfig

  const SuperuserPass := "跳过权限检查，发送用户为超级用户"
  const Passed := "权限检查通过"
  const CountKey := "bingchat_count"

  /** The filter as the list-valued configuration gives it. */
  function FilterOf(c: LegacyConfig.Config): SrcOnebotCheck.Filter
  {
    SrcOnebotCheck.Filter((set u | u in c.superusers), c.groupFilterMode,
                          (set g | g in c.groupFilterWhitelist), (set g | g in c.groupFilterBlacklist))
  }

  /** The decision part of `permissionsCheck`. */
  function Decision(c: LegacyConfig.Config, kind: OneBotKind, subType: string, userId: int): (r: Result<string>)
    ensures subType == "group" ==> r == Err(PermissionDenied(GroupTemporaryChat))
    ensures subType != "group" && userId in c.superusers ==> r == Ok(SuperuserPass)
    ensures r.Ok? && subType != "group" && userId !in c.superusers ==> r.value == Passed
  {
    if subType == "group" then Err(PermissionDenied(GroupTemporaryChat))
    else if userId in c.superusers then Ok(SuperuserPass)
    else match kind
      case GroupChat(g) =>
        (match c.groupFilterMode
         case Blacklist => if g in c.groupFilterBlacklist then Err(PermissionDenied(GroupInBlacklist)) else Ok(Passed)
         case Whitelist => if g !in c.groupFilterWhitelist then Err(PermissionDenied(GroupNotInWhitelist)) else Ok(Passed))
      case _ => Ok(Passed)
  }

  /** The earliest check admits and refuses exactly as the older OneBot check
      does, for the same reasons; only the message on passing differs. */
  lemma DecisionAgrees(c: LegacyConfig.Config, kind: OneBotKind, subType: string, userId: int)
    ensures var mine := Decision(c, kind, subType, userId);
            var older := OnebotCheck.CheckIfInList(FilterOf(c), kind, subType, userId);
            mine.Ok? == older.Ok? && (mine.Err? ==> mine.error == older.error)
  {
  }

  /** The mapping `permissionsCheck` increments; the empty mapping is falsy. */
  class UserCounters {
    var fields: map<string, int>

    constructor (fields: map<string, int>)
      ensures this.fields == fields
    {
      this.fields := fields;
    }
  }

  /** `permissionsCheck`: on a refusal or for a superuser nothing changes; a
      non-superuser that passes has the counter of the given, non-empty
      mapping raised by one, and a non-empty mapping without it raises
      `KeyError`. */
  method PermissionsCheck(c: LegacyConfig.Config, kind: OneBotKind, subType: string, userId: int,
                          userData: UserCounters?) returns (r: Result<string>)
    modifies userData
    ensures Decision(c, kind, subType, userId).Err? ==> r == Decision(c, kind, subType, userId)
    ensures r.Ok? ==> r == Decision(c, kind, subType, userId)
    ensures subType != "group" && userId in c.superusers ==> r == Ok(SuperuserPass)
    ensures (r.Err? || r == Ok(SuperuserPass) || userData == null || old(userData.fields) == map[])
            ==> userData == null || userData.fields == old(userData.fields)
    ensures r == Ok(Passed) && userData != null && old(userData.fields) != map[] ==>
              CountKey in old(userData.fields)
              && userData.fields == old(userData.fields)[CountKey := old(userData.fields)[CountKey] + 1]
    ensures (Decision(c, kind, subType, userId) == Ok(Passed) && userData != null && old(userData.fields) != map[]
             && CountKey !in old(userData.fields)) ==> r == Err(PyKeyError(CountKey))
  {
    var d := Decision(c, kind, subType, userId);
    if d.Err? || d == Ok(SuperuserPass) {
      return d;
    }
    if userData != null && userData.fields != map[] {
      if CountKey !in userData.fields {
        return Err(PyKeyError(CountKey));
      }
      userData.fields := userData.fields[CountKey := userData.fields[CountKey] + 1];
    }
    return Ok(Passed);
  }
}
