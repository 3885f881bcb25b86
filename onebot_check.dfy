/** The admission checks of the older OneBot v11 handlers
    (nonebot_plugin_bing_chat/onebotv11/check.py): the same chain as the
    current one without its guild branch. */
module OnebotCheck {
  import opened Errors
  import opened Messages
  import SrcDataModel
  import SrcOnebotCheck

  /** `check_if_in_list`: any event that is not a group event passes once the
      temporary-chat and superuser tests are behind it. */
  function CheckIfInList(f: SrcOnebotCheck.Filter, kind: OneBotKind, subType: string, userId: int): (r: Result<string>)
    ensures subType == "group" ==> r == Err(PermissionDenied(GroupTemporaryChat))
    ensures subType != "group" && userId in f.superusers ==> r == Ok(SrcOnebotCheck.SuperuserPass)
    ensures subType != "group" && !kind.GroupChat? ==> r.Ok?
    ensures r.Ok? <==> (subType != "group" &&
                        (userId in f.superusers || !kind.GroupChat?
                         || ((f.mode == SrcDataModel.Blacklist ==> kind.groupId !in f.blacklist)
                             && (f.mode == SrcDataModel.Whitelist ==> kind.groupId in f.whitelist))))
  {
    if subType == "group" then Err(PermissionDenied(GroupTemporaryChat))
    else if userId in f.superusers then Ok(SrcOnebotCheck.SuperuserPass)
    else match kind
      case GroupChat(g) =>
        (match f.mode
         case Blacklist => if g in f.blacklist then Err(PermissionDenied(GroupInBlacklist)) else Ok(SrcOnebotCheck.InList)
         case Whitelist => if g !in f.whitelist then Err(PermissionDenied(GroupNotInWhitelist)) else Ok(SrcOnebotCheck.InList))
      case _ => Ok(SrcOnebotCheck.InList)
  }

  /** Outside guild channels the older and the current check decide alike,
      to the message; in a guild channel only the older one admits. */
  lemma AgreesWithCurrent(f: SrcOnebotCheck.Filter, kind: OneBotKind, subType: string, userId: int)
    ensures !kind.GuildChat? ==> CheckIfInList(f, kind, subType, userId) == SrcOnebotCheck.CheckIfInList(f, kind, subType, userId)
    ensures kind.GuildChat? && subType != "group" && userId !in f.superusers ==>
              CheckIfInList(f, kind, subType, userId).Ok? && SrcOnebotCheck.CheckIfInList(f, kind, subType, userId).Err?
  {
  }

  /** `check_if_user_is_waiting_for_response`; the event argument is unused. */
  function CheckIfUserIsWaiting(event: Event, isWaiting: bool): (r: Result<string>)
    ensures r.Err? <==> isWaiting
    ensures r.Err? ==> r.error == IsWaiting
  {
    if isWaiting then Err(IsWaiting) else Ok("用户没有对话在进行中")
  }
}
