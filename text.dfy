/** String helpers with Python's meaning: `sep.join(parts)`,
    `re.split('[..]', s)` on single-character separators, `str.startswith`. */
module Text {

  /** Python's `sep.join(parts)`. */
  function Join(parts: seq<string>, sep: string): (r: string)
    ensures parts == [] ==> r == ""
    ensures |parts| == 1 ==> r == parts[0]
    decreases |parts|
  {
    if parts == [] then ""
    else if |parts| == 1 then parts[0]
    else parts[0] + sep + Join(parts[1..], sep)
  }

  /** Joining splits at the first part. */
  lemma JoinCons(p: string, rest: seq<string>, sep: string)
    requires rest != []
    ensures Join([p] + rest, sep) == p + sep + Join(rest, sep)
  {
    assert ([p] + rest)[1..] == rest;
  }

  /** The joined text is exactly as long as its parts plus one separator
      between each neighbouring pair. */
  lemma {:induction false} JoinLength(parts: seq<string>, sep: string)
    ensures parts != [] ==> |Join(parts, sep)| == SumLengths(parts) + (|parts| - 1) * |sep|
    decreases |parts|
  {
    if |parts| > 1 {
      JoinLength(parts[1..], sep);
      assert SumLengths(parts) == |parts[0]| + SumLengths(parts[1..]);
    }
  }

  function SumLengths(parts: seq<string>): nat
    decreases |parts|
  {
    if parts == [] then 0 else |parts[0]| + SumLengths(parts[1..])
  }

  function Concat(parts: seq<string>): string
    decreases |parts|
  {
    if parts == [] then "" else parts[0] + Concat(parts[1..])
  }

  /** The characters of `s` that are not in `drop`, in order. */
  function Without(s: string, drop: set<char>): string
    decreases |s|
  {
    if s == [] then "" else (if s[0] in drop then "" else [s[0]]) + Without(s[1..], drop)
  }

  function Count(s: string, cs: set<char>): nat
    decreases |s|
  {
    if s == [] then 0 else (if s[0] in cs then 1 else 0) + Count(s[1..], cs)
  }

  /** Python's `re.split('[<seps>]', s)` for a class of single characters:
      the maximal runs between separators, including empty ones. */
  function SplitAny(s: string, seps: set<char>): (r: seq<string>)
    ensures |r| >= 1
    decreases |s|
  {
    if s == [] then [""]
    else
      var rest := SplitAny(s[1..], seps);
      if s[0] in seps then [""] + rest else [[s[0]] + rest[0]] + rest[1..]
  }

  /** Splitting loses nothing but the separators, makes one more piece than
      there are separators, and leaves no separator inside a piece. */
  lemma {:induction false} SplitAnySound(s: string, seps: set<char>)
    ensures Concat(SplitAny(s, seps)) == Without(s, seps)
    ensures |SplitAny(s, seps)| == Count(s, seps) + 1
    ensures forall i, j :: 0 <= i < |SplitAny(s, seps)| && 0 <= j < |SplitAny(s, seps)[i]| ==>
              SplitAny(s, seps)[i][j] !in seps
    decreases |s|
  {
    if s != [] {
      var rest := SplitAny(s[1..], seps);
      SplitAnySound(s[1..], seps);
      var r := SplitAny(s, seps);
      if s[0] in seps {
        assert r == [""] + rest;
        assert r[1..] == rest;
        assert Concat(r) == "" + Concat(rest);
        forall i, j | 0 <= i < |r| && 0 <= j < |r[i]| ensures r[i][j] !in seps {
          assert i > 0 && r[i] == rest[i - 1];
        }
      } else {
        assert r == [[s[0]] + rest[0]] + rest[1..];
        assert r[1..] == rest[1..];
        assert Concat(rest) == rest[0] + Concat(rest[1..]);
        assert Concat(r) == [s[0]] + rest[0] + Concat(rest[1..]);
        forall i, j | 0 <= i < |r| && 0 <= j < |r[i]| ensures r[i][j] !in seps {
          if i == 0 {
            if j > 0 { assert r[0][j] == rest[0][j - 1]; }
          } else {
            assert r[i] == rest[i];
          }
        }
      }
    }
  }

  /** Splitting text that starts with a separator-free run extends the
      first piece by that run. */
  lemma {:induction false} SplitAnyPlainPrefix(a: string, t: string, seps: set<char>)
    requires forall j :: 0 <= j < |a| ==> a[j] !in seps
    ensures SplitAny(a + t, seps) == [a + SplitAny(t, seps)[0]] + SplitAny(t, seps)[1..]
    decreases |a|
  {
    if a != [] {
      assert (a + t)[0] == a[0];
      assert (a + t)[1..] == a[1..] + t;
      SplitAnyPlainPrefix(a[1..], t, seps);
      assert [a[0]] + (a[1..] + SplitAny(t, seps)[0]) == a + SplitAny(t, seps)[0];
    } else {
      assert a + t == t;
      var r := SplitAny(t, seps);
      assert a + r[0] == r[0];
      assert [r[0]] + r[1..] == r;
    }
  }

  /** Splitting on a class of separators undoes joining with one of them,
      as long as no part contains a separator. */
  lemma {:induction false} SplitJoin(parts: seq<string>, c: char, seps: set<char>)
    requires parts != [] && c in seps
    requires forall i, j :: 0 <= i < |parts| && 0 <= j < |parts[i]| ==> parts[i][j] !in seps
    ensures SplitAny(Join(parts, [c]), seps) == parts
    decreases |parts|
  {
    if |parts| == 1 {
      SplitAnyPlainPrefix(parts[0], "", seps);
      assert parts[0] + "" == parts[0];
    } else {
      var rest := Join(parts[1..], [c]);
      SplitJoin(parts[1..], c, seps);
      assert Join(parts, [c]) == parts[0] + ([c] + rest);
      SplitAnyPlainPrefix(parts[0], [c] + rest, seps);
      assert ([c] + rest)[1..] == rest;
      assert SplitAny([c] + rest, seps) == [""] + parts[1..];
      assert parts[0] + "" == parts[0];
      assert ([""] + parts[1..])[1..] == parts[1..];
      assert [parts[0]] + parts[1..] == parts;
    }
  }

  /** Python's `s.startswith(prefix)`. */
  predicate StartsWith(s: string, prefix: string)
  {
    |prefix| <= |s| && s[..|prefix|] == prefix
  }
}
