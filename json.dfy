/** The loosely-typed JSON payload the chat backend returns, with the
    semantics of Python subscripting (`x[k]`, `x[i]`) that the classifiers
    and accessors rely on. */
module Json {

  datatype Option<+T> = None | Some(value: T)

  /** A decoded JSON value. Numbers are integers only. */
  datatype Json =
    | JNull
    | JBool(b: bool)
    | JNum(n: int)
    | JStr(s: string)
    | JArr(items: seq<Json>)
    | JObj(fields: map<string, Json>)

  /** The exceptions a Python subscript can raise. */
  datatype PyError = KeyError | IndexError | TypeError

  /** The outcome of one subscript: the value found, or the exception raised. */
  datatype Lookup = Hit(value: Json) | Miss(error: PyError)

  /** One subscript: by string key or by integer position. */
  datatype Step = Key(name: string) | Index(position: int)

  /** Python's `x[step]` on a decoded JSON value: a key on an object,
      a position (negative counts from the end) on a list or string. */
  function Subscript(x: Json, step: Step): (r: Lookup)
    ensures step.Key? && x.JObj? && step.name in x.fields ==> r == Hit(x.fields[step.name])
    ensures step.Key? && x.JObj? && step.name !in x.fields ==> r == Miss(KeyError)
    ensures step.Key? && !x.JObj? ==> r == Miss(TypeError)
    ensures step.Index? && x.JArr? && 0 <= step.position < |x.items| ==> r == Hit(x.items[step.position])
    ensures step.Index? && (x.JNull? || x.JBool? || x.JNum?) ==> r == Miss(TypeError)
    ensures r.Miss? && r.error == TypeError ==> !(x.JObj? && step.Key?)
  {
    match step
    case Key(k) =>
      (match x
       case JObj(m) => if k in m then Hit(m[k]) else Miss(KeyError)
       case _ => Miss(TypeError))
    case Index(i) =>
      match x
      case JObj(_) => Miss(KeyError)
      case JArr(xs) =>
        if -|xs| <= i < |xs| then Hit(xs[if i < 0 then i + |xs| else i]) else Miss(IndexError)
      case JStr(s) =>
        if -|s| <= i < |s| then Hit(JStr([s[if i < 0 then i + |s| else i]])) else Miss(IndexError)
      case _ => Miss(TypeError)
  }

  /** A chain of subscripts `x[s0][s1]...`, stopping at the first exception. */
  function Walk(x: Json, path: seq<Step>): (r: Lookup)
    decreases |path|
  {
    if path == [] then Hit(x)
    else
      match Subscript(x, path[0])
      case Hit(y) => Walk(y, path[1..])
      case Miss(e) => Miss(e)
  }

  /** A walk along a path splits into a walk along a prefix and a walk
      along the rest. */
  lemma {:induction false} WalkAppend(x: Json, p: seq<Step>, q: seq<Step>)
    ensures Walk(x, p + q) == match Walk(x, p) case Hit(y) => Walk(y, q) case Miss(e) => Miss(e)
    decreases |p|
  {
    if p == [] {
      assert p + q == q;
    } else {
      assert (p + q)[0] == p[0];
      assert (p + q)[1..] == p[1..] + q;
      match Subscript(x, p[0])
      case Hit(y) => WalkAppend(y, p[1..], q);
      case Miss(e) =>
    }
  }

  /** Only a mapping matches a mapping pattern; `Field(x, k)` is the value
      a `{k: ...}` pattern binds, when it matches. */
  function Field(x: Json, k: string): (r: Option<Json>)
    ensures r.Some? <==> x.JObj? && k in x.fields
    ensures r.Some? ==> Subscript(x, Key(k)) == Hit(r.value)
  {
    if x.JObj? && k in x.fields then Some(x.fields[k]) else None
  }

  /** What one element of the iterable contributes to Python's `dict(v)`:
      an entry under a string key; an entry under another hashable key,
      which no lookup of the plugin reaches; or the TypeError or ValueError
      that makes `dict` fail. */
  datatype PairEntry = Entry(key: string, value: Json) | OtherKey | Refused

  /** One element of `dict(v)`'s argument: a two-item list with a hashable
      first item, or a two-character string. With `strKeys` (a
      `Dict[str, Any]` field), a `None` key fails the key's `str`
      validation. An object element is taken as refused: Python would pair
      its keys in insertion order, which `JObj` does not keep. */
  function PairOf(e: Json, strKeys: bool): PairEntry
  {
    match e
    case JArr(xs) =>
      if |xs| != 2 then Refused
      else (match xs[0]
            case JStr(k) => Entry(k, xs[1])
            case JNull => if strKeys then Refused else OtherKey
            case JArr(_) => Refused
            case JObj(_) => Refused
            case _ => OtherKey)
    case JStr(s) => if |s| == 2 then Entry([s[0]], JStr([s[1]])) else Refused
    case _ => Refused
  }

  /** `dict(xs)` for a list, keeping its string-keyed entries; a later
      entry under the same key replaces an earlier one. */
  function Pairs(xs: seq<Json>, strKeys: bool): Option<map<string, Json>>
    decreases |xs|
  {
    if xs == [] then Some(map[])
    else match Pairs(xs[..|xs| - 1], strKeys)
      case None => None
      case Some(m) =>
        match PairOf(xs[|xs| - 1], strKeys)
        case Entry(k, v) => Some(m[k := v])
        case OtherKey => Some(m)
        case Refused => None
  }

  /** pydantic's coercion of a value given for a `dict` field, which runs
      before the field's own validators: a mapping is kept, anything else
      goes through `dict(v)`, and a value `dict` refuses (or `None`) is a
      validation error. */
  function AsDict(v: Json, strKeys: bool): (r: Option<Json>)
    ensures v.JObj? ==> r == Some(v)
    ensures v == JArr([]) || v == JStr("") ==> r == Some(JObj(map[]))
    ensures v.JNull? || v.JBool? || v.JNum? || (v.JStr? && v.s != "") ==> r == None
    ensures v.JArr? ==> (r.None? <==> exists i :: 0 <= i < |v.items| && PairOf(v.items[i], strKeys).Refused?)
    ensures r.Some? ==> r.value.JObj?
  {
    match v
    case JObj(_) => Some(v)
    case JArr(xs) =>
      PairsRefusedIff(xs, strKeys);
      (match Pairs(xs, strKeys) case Some(m) => Some(JObj(m)) case None => None)
    case JStr(s) => if s == [] then Some(JObj(map[])) else None
    case _ => None
  }

  /** `dict` fails exactly when some element is refused. */
  lemma {:induction false} PairsRefusedIff(xs: seq<Json>, strKeys: bool)
    ensures Pairs(xs, strKeys).None? <==> exists i :: 0 <= i < |xs| && PairOf(xs[i], strKeys).Refused?
    decreases |xs|
  {
    if xs != [] {
      var init := xs[..|xs| - 1];
      PairsRefusedIff(init, strKeys);
      if Pairs(init, strKeys).None? {
        var i :| 0 <= i < |init| && PairOf(init[i], strKeys).Refused?;
        assert xs[i] == init[i];
      } else {
        forall i | 0 <= i < |init|
          ensures PairOf(xs[i], strKeys) == PairOf(init[i], strKeys)
        {
          assert xs[i] == init[i];
        }
      }
    }
  }

  /** A key of `dict(xs)` is the key of some entry, and holds the value of
      the last entry under it. */
  lemma {:induction false} PairsLastWins(xs: seq<Json>, strKeys: bool, k: string, i: nat)
    requires Pairs(xs, strKeys).Some?
    requires i < |xs| && PairOf(xs[i], strKeys).Entry? && PairOf(xs[i], strKeys).key == k
    requires forall j :: i < j < |xs| ==> !(PairOf(xs[j], strKeys).Entry? && PairOf(xs[j], strKeys).key == k)
    ensures k in Pairs(xs, strKeys).value && Pairs(xs, strKeys).value[k] == PairOf(xs[i], strKeys).value
    decreases |xs|
  {
    var init := xs[..|xs| - 1];
    if i < |xs| - 1 {
      assert init[i] == xs[i];
      forall j | i < j < |init|
        ensures !(PairOf(init[j], strKeys).Entry? && PairOf(init[j], strKeys).key == k)
      {
        assert init[j] == xs[j];
      }
      PairsLastWins(init, strKeys, k, i);
    }
  }

  /** A key no entry carries is not a key of `dict(xs)`. */
  lemma {:induction false} PairsOnlyEntries(xs: seq<Json>, strKeys: bool, k: string)
    requires Pairs(xs, strKeys).Some?
    requires forall j :: 0 <= j < |xs| ==> !(PairOf(xs[j], strKeys).Entry? && PairOf(xs[j], strKeys).key == k)
    ensures k !in Pairs(xs, strKeys).value
    decreases |xs|
  {
    if xs != [] {
      var init := xs[..|xs| - 1];
      forall j | 0 <= j < |init|
        ensures !(PairOf(init[j], strKeys).Entry? && PairOf(init[j], strKeys).key == k)
      {
        assert init[j] == xs[j];
      }
      PairsOnlyEntries(init, strKeys, k);
    }
  }

  /** Python's `str()` of a scalar JSON value, as an f-string renders it. */
  function Scalar(x: Json): (r: string)
    ensures x.JStr? ==> r == x.s
  {
    match x
    case JNull => "None"
    case JBool(b) => if b then "True" else "False"
    case JNum(n) => Decimal(n)
    case JStr(s) => s
    case JArr(_) => "[...]"
    case JObj(_) => "{...}"
  }

  function DigitChar(d: int): (c: char)
    requires 0 <= d < 10
    ensures '0' <= c <= '9'
  {
    "0123456789"[d]
  }

  /** The decimal digits of a natural number, most significant first. */
  function Digits(n: nat): (r: string)
    ensures |r| >= 1
    ensures forall i :: 0 <= i < |r| ==> '0' <= r[i] <= '9'
    decreases n
  {
    if n < 10 then [DigitChar(n)] else Digits(n / 10) + [DigitChar(n % 10)]
  }

  /** Python's `str(n)` for an integer. */
  function Decimal(n: int): (r: string)
    ensures |r| >= 1
    ensures (n < 0) <==> r[0] == '-'
  {
    if n < 0 then "-" + Digits(-n) else Digits(n)
  }
}
