/** The admission checks of the current OneBot v11 handlers
    (src/plugins/.../onebotv11/check.py). Both are decisions on the event
    and the session; neither changes any state. */
module SrcOnebotCheck {
  import opened Errors
  import opened Messages
  import SrcDataModel

  /** The settings the group filter reads. */
  datatype Filter = Filter(superusers: set<int>, mode: SrcDataModel.FilterMode,
                           whitelist: set<int>, blacklist: set<int>)

  function FilterOf(c: SrcDataModel.PluginConfig): Filter
  {
    Filter(c.superusers, c.groupFilterMode, c.groupFilterWhitelist, c.groupFilterBlacklist)
  }

  const SuperuserPass := "跳过权限检查，发送用户为超级用户"
  const InList := "在名单中"

  /** Who may use the bot, stated as a rule rather than as the source's chain
      of early exits: never from a group-temporary chat; always a superuser
      otherwise; in a group, as the filter mode allows; never in a guild
      channel (its test raises); always in a private chat. */
  predicate Admitted(f: Filter, kind: OneBotKind, subType: string, userId: int)
  {
    subType != "group"
    && (userId in f.superusers
        || (kind.GroupChat? && (f.mode == SrcDataModel.Blacklist ==> kind.groupId !in f.blacklist)
                            && (f.mode == SrcDataModel.Whitelist ==> kind.groupId in f.whitelist))
        || kind.PrivateChat?)
  }

  /** `check_if_in_list`. For a guild event the source tests a dictionary for
      membership in a set, which raises `TypeError` (dictionaries are not
      hashable), so a guild event from a non-superuser always fails. */
  function CheckIfInList(f: Filter, kind: OneBotKind, subType: string, userId: int): (r: Result<string>)
    ensures r.Ok? <==> Admitted(f, kind, subType, userId)
    ensures subType == "group" ==> r == Err(PermissionDenied(GroupTemporaryChat))
    ensures subType != "group" && userId in f.superusers ==> r == Ok(SuperuserPass)
    ensures r.Err? && subType != "group" && kind.GroupChat? ==>
              r.error == PermissionDenied(if f.mode == SrcDataModel.Blacklist then GroupInBlacklist else GroupNotInWhitelist)
    ensures r.Err? && subType != "group" && kind.GuildChat? ==> r.error == PyTypeError
    ensures r.Ok? && userId !in f.superusers ==> r.value == InList
  {
    if subType == "group" then Err(PermissionDenied(GroupTemporaryChat))
    else if userId in f.superusers then Ok(SuperuserPass)
    else match kind
      case GroupChat(g) =>
        (match f.mode
         case Blacklist => if g in f.blacklist then Err(PermissionDenied(GroupInBlacklist)) else Ok(InList)
         case Whitelist => if g !in f.whitelist then Err(PermissionDenied(GroupNotInWhitelist)) else Ok(InList))
      case GuildChat(_, _) => Err(PyTypeError)
      case PrivateChat => Ok(InList)
  }

  /** In blacklist mode a group is refused exactly when it is listed, and the
      whitelist plays no part. */
  lemma BlacklistIff(f: Filter, g: int, subType: string, userId: int, other: set<int>)
    requires subType != "group" && userId !in f.superusers && f.mode == SrcDataModel.Blacklist
    ensures CheckIfInList(f, GroupChat(g), subType, userId).Err? <==> g in f.blacklist
    ensures CheckIfInList(f.(whitelist := other), GroupChat(g), subType, userId) == CheckIfInList(f, GroupChat(g), subType, userId)
  {
  }

  /** In whitelist mode a group is refused exactly when it is not listed, and
      the blacklist plays no part. */
  lemma WhitelistIff(f: Filter, g: int, subType: string, userId: int, other: set<int>)
    requires subType != "group" && userId !in f.superusers && f.mode == SrcDataModel.Whitelist
    ensures CheckIfInList(f, GroupChat(g), subType, userId).Err? <==> g !in f.whitelist
    ensures CheckIfInList(f.(blacklist := other), GroupChat(g), subType, userId) == CheckIfInList(f, GroupChat(g), subType, userId)
  {
  }

  /** Being made a superuser never turns an admitted event away. */
  lemma SuperuserMonotone(f: Filter, kind: OneBotKind, subType: string, userId: int)
    ensures CheckIfInList(f, kind, subType, userId).Ok? ==>
            CheckIfInList(f.(superusers := f.superusers + {userId}), kind, subType, userId).Ok?
  {
  }

  /** `check_if_user_is_waiting_for_response`: refuses exactly a user whose
      previous question is still being answered. */
  function CheckIfUserIsWaiting(user: SrcDataModel.UserData): (r: Result<string>)
    reads user
    ensures r.Err? <==> user.isWaiting
    ensures r.Err? ==> r.error == IsWaiting
    ensures r.Ok? ==> r.value == "用户没有对话在进行中"
  {
    if user.isWaiting then Err(IsWaiting) else Ok("用户没有对话在进行中")
  }
}
