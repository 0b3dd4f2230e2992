/**
 * The part of PHP's value model the filters rely on: `null`, scalars and
 * ordered arrays, array lookups with `isset` semantics, and the string
 * functions `explode` and `implode`.
 */
module Php {

  datatype Option<+T> = None | Some(value: T)

  /**
   * A PHP value as it reaches the filters. Arrays keep their insertion
   * order; their keys are modelled as strings.
   */
  datatype Value =
    | Null
    | Bool(b: bool)
    | Int(i: int)
    | Str(s: string)
    | Arr(entries: seq<(string, Value)>)

  /** Index of the first element of `xs` that satisfies `p` (a linear search). */
  function FirstIndex<T>(xs: seq<T>, p: T -> bool): (r: Option<nat>)
    ensures r.Some? ==> r.value < |xs| && p(xs[r.value])
    ensures r.Some? ==> forall j :: 0 <= j < r.value ==> !p(xs[j])
    ensures r.None? ==> forall j :: 0 <= j < |xs| ==> !p(xs[j])
    decreases |xs|
  {
    if |xs| == 0 then None
    else if p(xs[0]) then Some(0)
    else
      match FirstIndex(xs[1..], p)
      case None =>
        assert forall j :: 1 <= j < |xs| ==> xs[j] == xs[1..][j - 1];
        None
      case Some(k) =>
        assert forall j :: 1 <= j < k + 1 ==> xs[j] == xs[1..][j - 1];
        Some(k + 1)
  }

  /** `$array[$key]` on an ordered array: the value stored under `key`, if any. */
  function Lookup(entries: seq<(string, Value)>, key: string): (r: Option<Value>)
    ensures r.None? <==> forall i :: 0 <= i < |entries| ==> entries[i].0 != key
    ensures r.Some? ==> exists i :: 0 <= i < |entries| && entries[i] == (key, r.value)
  {
    match FirstIndex(entries, (e: (string, Value)) => e.0 == key)
    case None => None
    case Some(i) => Some(entries[i].1)
  }

  /** `$map[$key]`, with PHP's `null` for a missing key. */
  function Get(m: map<string, Value>, key: string): (r: Value)
    ensures key !in m ==> r == Null
  {
    if key in m then m[key] else Null
  }

  /** `$list[$i]`, with PHP's `null` for a missing index. */
  function At(s: seq<Value>, i: nat): (r: Value)
    ensures i >= |s| ==> r == Null
  {
    if i < |s| then s[i] else Null
  }

  /** `isset($map[$key])`: the key is present and its value is not `null`. */
  predicate Isset(m: map<string, Value>, key: string) {
    key in m && m[key] != Null
  }

  /**
   * `isset($value[$key])` on an arbitrary value: only an array holding a
   * non-null entry under `key` passes (a string offset by a non-numeric
   * key is not set either).
   */
  predicate IssetIn(value: Value, key: string) {
    value.Arr? && Lookup(value.entries, key).Some? && Lookup(value.entries, key).value != Null
  }

  /** PHP's conversion of a value to boolean (as in `if ($v)` or `!$v`). */
  predicate Truthy(v: Value) {
    match v
    case Null => false
    case Bool(b) => b
    case Int(i) => i != 0
    case Str(s) => s != "" && s != "0"
    case Arr(entries) => |entries| > 0
  }

  /** `$value[$key] ?? null` on an arbitrary value. */
  function Coalesce(value: Value, key: string): (r: Value)
    ensures r != Null <==> IssetIn(value, key)
  {
    if IssetIn(value, key) then Lookup(value.entries, key).value else Null
  }

  /**
   * `explode($separator, $s)`: the pieces of `s` between non-overlapping
   * occurrences of `separator`, scanning from the left.
   */
  function Explode(separator: string, s: string): (parts: seq<string>)
    requires separator != ""
    ensures |parts| >= 1
    decreases |s|
  {
    if |s| < |separator| then [s]
    else if s[..|separator|] == separator then [""] + Explode(separator, s[|separator|..])
    else
      var rest := Explode(separator, s[1..]);
      [[s[0]] + rest[0]] + rest[1..]
  }

  /** `implode($separator, $parts)`. */
  function Implode(separator: string, parts: seq<string>): string
  {
    if |parts| == 0 then ""
    else if |parts| == 1 then parts[0]
    else parts[0] + separator + Implode(separator, parts[1..])
  }

  lemma ImplodePrepend(separator: string, x: string, rest: seq<string>)
    requires |rest| >= 1
    ensures Implode(separator, [x + rest[0]] + rest[1..]) == x + Implode(separator, rest)
  {
    var parts := [x + rest[0]] + rest[1..];
    if |rest| > 1 {
      assert parts[1..] == rest[1..];
    }
  }

  /** Gluing the pieces back together gives the original string. */
  lemma {:induction false} ImplodeExplode(separator: string, s: string)
    requires separator != ""
    ensures Implode(separator, Explode(separator, s)) == s
    decreases |s|
  {
    if |s| < |separator| {
    } else if s[..|separator|] == separator {
      var tail := s[|separator|..];
      var rest := Explode(separator, tail);
      assert Explode(separator, s) == [""] + rest;
      ImplodeExplode(separator, tail);
      assert ([""] + rest)[1..] == rest;
      assert Implode(separator, [""] + rest) == "" + separator + Implode(separator, rest);
      assert s == separator + tail;
    } else {
      var rest := Explode(separator, s[1..]);
      assert Explode(separator, s) == [[s[0]] + rest[0]] + rest[1..];
      ImplodeExplode(separator, s[1..]);
      ImplodePrepend(separator, [s[0]], rest);
      assert s == [s[0]] + s[1..];
    }
  }

  lemma {:induction false} ExplodeWithoutSeparator(c: char, a: string)
    requires c !in a
    ensures Explode([c], a) == [a]
    decreases |a|
  {
    if |a| >= 1 {
      assert a[..1] != [c] by { assert a[..1][0] == a[0]; }
      ExplodeWithoutSeparator(c, a[1..]);
      assert [a[0]] + a[1..] == a;
    }
  }

  lemma {:induction false} ExplodeAfterPiece(c: char, a: string, b: string)
    requires c !in a
    ensures Explode([c], a + [c] + b) == [a] + Explode([c], b)
    decreases |a|
  {
    var s := a + [c] + b;
    if |a| == 0 {
      assert s[..1] == [c];
      assert s[1..] == b;
    } else {
      assert s[..1] != [c] by { assert s[..1][0] == a[0]; }
      assert s[1..] == a[1..] + [c] + b;
      ExplodeAfterPiece(c, a[1..], b);
      assert [a[0]] + a[1..] == a;
    }
  }

  /**
   * Splitting on a one-character separator undoes `implode` when no piece
   * contains that character.
   */
  lemma {:induction false} ExplodeImplode(c: char, parts: seq<string>)
    requires |parts| >= 1
    requires forall i :: 0 <= i < |parts| ==> c !in parts[i]
    ensures Explode([c], Implode([c], parts)) == parts
    decreases |parts|
  {
    if |parts| == 1 {
      ExplodeWithoutSeparator(c, parts[0]);
    } else {
      ExplodeImplode(c, parts[1..]);
      ExplodeAfterPiece(c, parts[0], Implode([c], parts[1..]));
      assert [parts[0]] + parts[1..] == parts;
    }
  }
}
