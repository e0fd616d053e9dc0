/** JavaScript value conventions the route handlers and pages rely on:
    optional values, `undefined`/`null`, truthiness as used by `||`,
    `String.prototype.toLowerCase` and `String.prototype.includes`. */
module Js {

  /** A value that may be absent. In a response `None` is JSON `null`;
      for a number it also stands for NaN, which JSON serialises as `null`. */
  datatype Option<+T> = None | Some(value: T) {
    function GetOr(default: T): T {
      match this
      case Some(v) => v
      case None => default
    }
  }

  /** A field of a stored record as JavaScript sees it: missing (`undefined`),
      explicitly `null`, or holding a value. */
  datatype Nullable<+T> = Undefined | Null | Defined(value: T)

  /** Truthiness of a string field: `undefined`, `null` and `""` are falsy. */
  predicate TruthyString(v: Nullable<string>) {
    v.Defined? && |v.value| > 0
  }

  /** Truthiness of a numeric field: `undefined`, `null` and zero are falsy. */
  predicate TruthyReal(v: Nullable<real>) {
    v.Defined? && v.value != 0.0
  }

  predicate TruthyInt(v: Nullable<int>) {
    v.Defined? && v.value != 0
  }

  /** `v || null` for a string field. */
  function StringOrNull(v: Nullable<string>): (r: Option<string>)
    ensures r.Some? <==> TruthyString(v)
    ensures r.Some? ==> v == Defined(r.value) && r.value != ""
  {
    if TruthyString(v) then Some(v.value) else None
  }

  /** `v || null` for a real-valued numeric field. */
  function RealOrNull(v: Nullable<real>): (r: Option<real>)
    ensures r.Some? <==> TruthyReal(v)
    ensures r.Some? ==> v == Defined(r.value) && r.value != 0.0
  {
    if TruthyReal(v) then Some(v.value) else None
  }

  /** `v || null` for an integer-valued numeric field. */
  function IntOrNull(v: Nullable<int>): (r: Option<int>)
    ensures r.Some? <==> TruthyInt(v)
    ensures r.Some? ==> v == Defined(r.value) && r.value != 0
  {
    if TruthyInt(v) then Some(v.value) else None
  }

  /** `v || []` for an array field; arrays, even empty ones, are truthy. */
  function ArrayOrEmpty<T>(v: Nullable<seq<T>>): (r: seq<T>)
    ensures v.Defined? ==> r == v.value
    ensures !v.Defined? ==> r == []
  {
    if v.Defined? then v.value else []
  }

  /** `v || null` for an object field; objects are always truthy. */
  function ObjectOrNull<T>(v: Nullable<T>): (r: Option<T>)
    ensures r.Some? <==> v.Defined?
    ensures r.Some? ==> v == Defined(r.value)
  {
    if v.Defined? then Some(v.value) else None
  }

  /** `v || false` for a boolean field. */
  function BoolOrFalse(v: Nullable<bool>): (r: bool)
    ensures r <==> v == Defined(true)
  {
    v.Defined? && v.value
  }

  /** Lower-casing of one character; only the ASCII letters A-Z change. */
  function LowerChar(c: char): char {
    if 'A' <= c <= 'Z' then (c as int + 32) as char else c
  }

  /** `s.toLowerCase()`, restricted to ASCII case mapping. */
  function ToLower(s: string): (r: string)
    ensures |r| == |s|
    ensures forall i :: 0 <= i < |s| ==> r[i] == LowerChar(s[i])
  {
    seq(|s|, i requires 0 <= i < |s| => LowerChar(s[i]))
  }

  lemma LowerCharIdempotent(c: char)
    ensures LowerChar(LowerChar(c)) == LowerChar(c)
  {
  }

  /** Lower-casing twice is lower-casing once. */
  lemma ToLowerIdempotent(s: string)
    ensures ToLower(ToLower(s)) == ToLower(s)
  {
    forall i | 0 <= i < |s|
      ensures ToLower(ToLower(s))[i] == ToLower(s)[i]
    {
      LowerCharIdempotent(s[i]);
    }
  }

  /** `s.startsWith(p)`. */
  predicate StartsWith(s: string, p: string) {
    |p| <= |s| && s[..|p|] == p
  }

  /** `s.includes(sub)`: scans the start positions of `s` from left to right. */
  function Includes(s: string, sub: string): (b: bool)
    ensures sub == "" ==> b
    ensures b ==> |sub| <= |s|
    decreases |s|
  {
    StartsWith(s, sub) || (|s| > 0 && Includes(s[1..], sub))
  }

  /** The independent definition of containment: some window of `s` equals `sub`. */
  ghost predicate OccursAt(s: string, sub: string, i: int) {
    0 <= i && i + |sub| <= |s| && s[i..i + |sub|] == sub
  }

  /** The scan in `Includes` finds `sub` exactly when it occurs at some position. */
  lemma {:induction false} IncludesIff(s: string, sub: string)
    ensures Includes(s, sub) <==> exists i :: OccursAt(s, sub, i)
    decreases |s|
  {
    if StartsWith(s, sub) {
      assert OccursAt(s, sub, 0);
    } else if |s| > 0 {
      IncludesIff(s[1..], sub);
      if exists i :: OccursAt(s[1..], sub, i) {
        var i :| OccursAt(s[1..], sub, i);
        assert s[i + 1..i + 1 + |sub|] == s[1..][i..i + |sub|];
        assert OccursAt(s, sub, i + 1);
      }
      forall i | OccursAt(s, sub, i)
        ensures OccursAt(s[1..], sub, i - 1)
      {
        assert s[1..][i - 1..i - 1 + |sub|] == s[i..i + |sub|];
      }
    }
  }
}
