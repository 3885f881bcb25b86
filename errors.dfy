/** The exceptions the plugin raises at run time, as values. The class each
    one belongs to, and how the classes nest, is stated per exception module
    (CommonExceptions, LegacyExceptions). */
module Errors {
  import opened Json

  /** Why a permission check refused the event. */
  datatype DenyReason = GroupTemporaryChat | GroupInBlacklist | GroupNotInWhitelist

  datatype Exc =
    /** `Throttled`: the account reached its daily request limit. */
    | AccountReachLimit
    /** `InvalidSession`: the backend session expired. */
    | InvalidSession
    /** The conversation has more user messages than the backend allows;
        carries the two counters as they appear in the payload. */
    | ConversationReachLimit(num: Json, max: Json)
    /** The first reply message was flagged offensive. */
    | Offensive
    /** The backend hid its answer; carries the hidden text. */
    | Hidden(text: Json)
    /** A reply that fits no known shape. */
    | UnknownResponse
    /** An accessor found a key or position missing (`<无效的响应值>`). */
    | InvalidResponseValue
    | PermissionDenied(reason: DenyReason)
    | IsWaiting
    /** Python's built-in exceptions, where the source lets one escape. */
    | PyTypeError
    | PyValueError(detail: string)
    | PyKeyError(key: string)
    | PyIndexError
    | NotImplemented
    /** Any other exception: one the backend client raises, or a bare
        `Exception`. */
    | PyException
    /** Python's recursion limit was reached. */
    | PyRecursionError
    /** pydantic's `ValidationError` (a ValueError): a model field refused its
        value, or a validator raised TypeError or ValueError. */
    | ValidationError

  /** `str(exc)` for the exceptions whose text a handler sends back. */
  function Describe(e: Exc): string
  {
    match e
    case PermissionDenied(GroupTemporaryChat) => "您没有权限，无法再群临时对话聊进行"
    case PermissionDenied(GroupInBlacklist) => "您没有权限，此群组在黑名单"
    case PermissionDenied(GroupNotInWhitelist) => "您没有权限，此群组不在白名单"
    case IsWaiting => "您有一个对话正在进行中，请先等待回应"
    case _ => ""
  }

  datatype Result<+T> = Ok(value: T) | Err(error: Exc)

  /** What a response classifier decides about a raw payload. */
  datatype Verdict = Accepted(raw: Json) | Rejected(error: Exc)

  /** The classifier exceptions that are `BingChatResponseException`s in
      every variant of the source. */
  predicate IsResponseError(e: Exc)
  {
    e.AccountReachLimit? || e.InvalidSession? || e.ConversationReachLimit? || e.Offensive?
    || e.Hidden? || e.UnknownResponse? || e.InvalidResponseValue?
  }

  /** The exceptions that are `BaseBingChatException`s, which the handlers
      catch and report; everything else escapes them. */
  predicate IsPluginError(e: Exc)
  {
    IsResponseError(e) || e.PermissionDenied? || e.IsWaiting?
  }

  /** A Python loop that applies `f` to each element in order, appending
      each result to a list, and lets the first exception escape. */
  function Collect<A, B>(f: A -> Result<B>, xs: seq<A>): Result<seq<B>>
    decreases |xs|
  {
    if xs == [] then Ok([])
    else match Collect(f, xs[..|xs| - 1])
      case Err(e) => Err(e)
      case Ok(prev) =>
        match f(xs[|xs| - 1])
        case Err(e) => Err(e)
        case Ok(y) => Ok(prev + [y])
  }

  /** The loop succeeds exactly when every element succeeds, and then gives
      one result per element, in order. */
  lemma {:induction false} CollectShape<A, B>(f: A -> Result<B>, xs: seq<A>)
    ensures Collect(f, xs).Ok? <==> forall i :: 0 <= i < |xs| ==> f(xs[i]).Ok?
    ensures Collect(f, xs).Ok? ==>
              |Collect(f, xs).value| == |xs|
              && forall i :: 0 <= i < |xs| ==> Collect(f, xs).value[i] == f(xs[i]).value
    decreases |xs|
  {
    if xs != [] {
      var init := xs[..|xs| - 1];
      assert forall i :: 0 <= i < |init| ==> init[i] == xs[i];
      CollectShape(f, init);
      var prev, y := Collect(f, init), f(xs[|xs| - 1]);
      if prev.Err? {
        var k :| 0 <= k < |init| && f(init[k]).Err?;
      } else if y.Ok? {
        assert Collect(f, xs) == Ok(prev.value + [y.value]);
      }
    }
  }

  /** One more turn of the loop: the results so far, then the next
      element's, unless either raised. */
  lemma CollectStep<A, B>(f: A -> Result<B>, xs: seq<A>, i: nat)
    requires i < |xs|
    ensures Collect(f, xs[..i + 1]) ==
              match Collect(f, xs[..i])
              case Err(e) => Err(e)
              case Ok(prev) => (match f(xs[i]) case Err(e) => Err(e) case Ok(y) => Ok(prev + [y]))
  {
    assert xs[..i + 1][..i] == xs[..i];
  }

  /** Once an element raises, the whole loop raises the same error. */
  lemma {:induction false} CollectErrExtends<A, B>(f: A -> Result<B>, xs: seq<A>, i: nat)
    requires i <= |xs| && Collect(f, xs[..i]).Err?
    ensures Collect(f, xs) == Collect(f, xs[..i])
    decreases |xs|
  {
    if i < |xs| {
      var init := xs[..|xs| - 1];
      assert init[..i] == xs[..i];
      CollectErrExtends(f, init, i);
    } else {
      assert xs[..i] == xs;
    }
  }

  /** The same loop when each element gives a list that is appended with
      `+=`. */
  function CollectConcat<A, B>(f: A -> Result<seq<B>>, xs: seq<A>): Result<seq<B>>
    decreases |xs|
  {
    if xs == [] then Ok([])
    else match CollectConcat(f, xs[..|xs| - 1])
      case Err(e) => Err(e)
      case Ok(prev) =>
        match f(xs[|xs| - 1])
        case Err(e) => Err(e)
        case Ok(ys) => Ok(prev + ys)
  }

  /** The `i`-th pair after appending one more pair. */
  lemma PairOfAppend<B>(a: seq<B>, b: seq<B>, i: nat)
    requires |a| % 2 == 0 && |b| == 2 && 2 * i <= |a|
    ensures (a + b)[2 * i..2 * i + 2] == if 2 * i < |a| then a[2 * i..2 * i + 2] else b
  {
  }

  /** When every element gives a pair, the loop succeeds exactly when every
      element succeeds, and the `i`-th pair is the `i`-th element's. */
  lemma {:induction false} CollectPairsShape<A, B>(f: A -> Result<seq<B>>, xs: seq<A>)
    requires forall i :: 0 <= i < |xs| ==> f(xs[i]).Ok? ==> |f(xs[i]).value| == 2
    ensures CollectConcat(f, xs).Ok? <==> forall i :: 0 <= i < |xs| ==> f(xs[i]).Ok?
    ensures CollectConcat(f, xs).Ok? ==>
              var m := CollectConcat(f, xs).value;
              |m| == 2 * |xs|
              && forall i :: 0 <= i < |xs| ==> m[2 * i..2 * i + 2] == f(xs[i]).value
    decreases |xs|
  {
    if xs != [] {
      var init := xs[..|xs| - 1];
      assert forall i :: 0 <= i < |init| ==> init[i] == xs[i];
      CollectPairsShape(f, init);
      var prev, y := CollectConcat(f, init), f(xs[|xs| - 1]);
      if prev.Ok? && y.Ok? {
        var m := prev.value + y.value;
        assert CollectConcat(f, xs) == Ok(m);
        forall i | 0 <= i < |xs|
          ensures m[2 * i..2 * i + 2] == f(xs[i]).value
        {
          PairOfAppend(prev.value, y.value, i);
        }
      } else if prev.Err? {
        var k :| 0 <= k < |init| && f(init[k]).Err?;
      }
    }
  }

  /** Once an element raises, the whole loop raises the same error. */
  lemma {:induction false} CollectConcatErrExtends<A, B>(f: A -> Result<seq<B>>, xs: seq<A>, i: nat)
    requires i <= |xs| && CollectConcat(f, xs[..i]).Err?
    ensures CollectConcat(f, xs) == CollectConcat(f, xs[..i])
    decreases |xs|
  {
    if i < |xs| {
      var init := xs[..|xs| - 1];
      assert init[..i] == xs[..i];
      CollectConcatErrExtends(f, init, i);
    } else {
      assert xs[..i] == xs;
    }
  }
}
