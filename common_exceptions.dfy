/** The exception classes of nonebot_plugin_bing_chat/common/exceptions.py
    and how they nest. */
module CommonExceptions {

  datatype ExcClass =
    | BaseBingChat
    | PermissionDenied
    | ReachLimit
    | GroupNotInList
    | IsWaitingForResponse
    | Network
    | Response
    | AccountReachLimit
    | ConversationReachLimit

  /** The class each class derives from directly; the base has none here. */
  function Parent(c: ExcClass): (p: ExcClass)
    requires c != BaseBingChat
    ensures Depth(p) + 1 == Depth(c)
  {
    match c
    case PermissionDenied => BaseBingChat
    case ReachLimit => PermissionDenied
    case GroupNotInList => PermissionDenied
    case IsWaitingForResponse => PermissionDenied
    case Network => BaseBingChat
    case Response => Network
    case AccountReachLimit => Response
    case ConversationReachLimit => Response
  }

  /** How far below the base a class sits. */
  function Depth(c: ExcClass): (n: nat)
  {
    match c
    case BaseBingChat => 0
    case PermissionDenied => 1
    case Network => 1
    case ReachLimit => 2
    case GroupNotInList => 2
    case IsWaitingForResponse => 2
    case Response => 2
    case AccountReachLimit => 3
    case ConversationReachLimit => 3
  }

  /** `issubclass(a, b)`: an `except b` clause catches an `a`. */
  predicate IsSubclass(a: ExcClass, b: ExcClass)
    decreases Depth(a)
  {
    a == b || (a != BaseBingChat && IsSubclass(Parent(a), b))
  }

  /** Both limit exceptions are caught as response exceptions. */
  lemma LimitsAreResponses()
    ensures IsSubclass(AccountReachLimit, Response) && IsSubclass(ConversationReachLimit, Response)
  {
  }

  /** A response exception is a network exception, and every class is a
      base exception. */
  lemma ResponseIsNetwork(c: ExcClass)
    ensures IsSubclass(Response, Network)
    ensures IsSubclass(c, BaseBingChat)
  {
  }

  /** The three refusals are permission-denied exceptions. */
  lemma RefusalsArePermissionDenied()
    ensures IsSubclass(ReachLimit, PermissionDenied)
    ensures IsSubclass(GroupNotInList, PermissionDenied)
    ensures IsSubclass(IsWaitingForResponse, PermissionDenied)
  {
  }

  /** No class is both permission-denied and a network exception, so an
      `except` for one branch never catches the other. */
  lemma BranchesDisjoint(c: ExcClass)
    ensures !(IsSubclass(c, PermissionDenied) && IsSubclass(c, Network))
  {
  }

  /** Subclassing is transitive. */
  lemma {:induction false} SubclassTransitive(a: ExcClass, b: ExcClass, c: ExcClass)
    requires IsSubclass(a, b) && IsSubclass(b, c)
    ensures IsSubclass(a, c)
    decreases Depth(a)
  {
    if a != b {
      SubclassTransitive(Parent(a), b, c);
    }
  }
}
