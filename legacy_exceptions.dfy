/** The exception classes of nonebot_plugin_bing_chat/exceptions.py and how
    they nest. */
module LegacyExceptions {

  datatype ExcClass =
    | BaseBingChat
    | PermissionDenied
    | GroupNotInList
    | ReachLimit
    | IsWaitingForResponse
    | Network
    | Response

  function Parent(c: ExcClass): (p: ExcClass)
    requires c != BaseBingChat
    ensures Depth(p) + 1 == Depth(c)
  {
    match c
    case PermissionDenied => BaseBingChat
    case GroupNotInList => PermissionDenied
    case ReachLimit => PermissionDenied
    case IsWaitingForResponse => PermissionDenied
    case Network => BaseBingChat
    case Response => Network
  }

  function Depth(c: ExcClass): (n: nat)
  {
    match c
    case BaseBingChat => 0
    case PermissionDenied => 1
    case Network => 1
    case _ => 2
  }

  /** `issubclass(a, b)`. */
  predicate IsSubclass(a: ExcClass, b: ExcClass)
    decreases Depth(a)
  {
    a == b || (a != BaseBingChat && IsSubclass(Parent(a), b))
  }

  /** Every class derives from the base. */
  lemma AllDeriveFromBase(c: ExcClass)
    ensures IsSubclass(c, BaseBingChat)
  {
  }

  /** The three refusals are permission-denied exceptions, and a response
      exception is a network exception. */
  lemma Branches()
    ensures IsSubclass(GroupNotInList, PermissionDenied) && IsSubclass(ReachLimit, PermissionDenied)
    ensures IsSubclass(IsWaitingForResponse, PermissionDenied)
    ensures IsSubclass(Response, Network)
  {
  }

  /** The two branches share only the base: a class below both of two
      classes from different branches does not exist. */
  lemma BranchesShareOnlyBase(c: ExcClass)
    ensures !(IsSubclass(c, PermissionDenied) && IsSubclass(c, Network))
  {
  }

  /** A class has at most one chain of ancestors: if it is below two
      classes, one of them is below the other. */
  lemma {:induction false} AncestorsOrdered(c: ExcClass, a: ExcClass, b: ExcClass)
    requires IsSubclass(c, a) && IsSubclass(c, b)
    ensures IsSubclass(a, b) || IsSubclass(b, a)
    decreases Depth(c)
  {
    if c != a && c != b {
      AncestorsOrdered(Parent(c), a, b);
    }
  }
}
