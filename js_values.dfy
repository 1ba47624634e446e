/** JavaScript value semantics that the route handler and the menu tool rely on:
    optional values, truthiness of strings, the `||` operator and
    `String.prototype.toLowerCase`. */
module JsValues {

  /** A value that may be `undefined` (a missing property or map key). */
  datatype Option<+T> = None | Some(value: T)

  /** Looking up a key of an object literal: `undefined` when the key is absent. */
  function Get<K, V>(m: map<K, V>, k: K): (r: Option<V>)
    ensures r.Some? <==> k in m
    ensures r.Some? ==> r.value == m[k]
  {
    if k in m then Some(m[k]) else None
  }

  /** JavaScript truthiness of a possibly-undefined string: `undefined` and
      the empty string are falsy, every other string is truthy. */
  predicate Truthy(v: Option<string>)
  {
    v.Some? && v.value != ""
  }

  /** `v || d` for a possibly-undefined string `v` and a string `d`. */
  function Or(v: Option<string>, d: string): (r: string)
    ensures Truthy(v) ==> r == v.value
    ensures !Truthy(v) ==> r == d
    ensures d != "" ==> r != ""
  {
    if Truthy(v) then v.value else d
  }

  /** KELVIN SIGN, the one character outside ASCII whose lower case is an
      ASCII letter ('k'). */
  const KelvinSign: char := '\U{212A}'

  predicate IsAsciiUpper(c: char)
  {
    'A' <= c <= 'Z'
  }

  /** Lower case of one character: ASCII capitals and the Kelvin sign are
      mapped as `toLowerCase` maps them; every other character is kept. */
  function LowerChar(c: char): (r: char)
    ensures !IsAsciiUpper(r) && r != KelvinSign
    ensures IsAsciiUpper(c) ==> r as int == c as int + 32
    ensures c == KelvinSign ==> r == 'k'
    ensures !IsAsciiUpper(c) && c != KelvinSign ==> r == c
  {
    if IsAsciiUpper(c) then (c as int + 32) as char
    else if c == KelvinSign then 'k'
    else c
  }

  /** `s.toLowerCase()`, character by character. */
  function ToLowerCase(s: string): (r: string)
    ensures |r| == |s|
  {
    if s == [] then [] else [LowerChar(s[0])] + ToLowerCase(s[1..])
  }

  lemma {:induction false} ToLowerCaseAt(s: string, i: nat)
    requires i < |s|
    ensures ToLowerCase(s)[i] == LowerChar(s[i])
  {
    if i > 0 {
      ToLowerCaseAt(s[1..], i - 1);
    }
  }

  /** `s` equals `k` once lowered, character by character. */
  predicate LowersTo(s: string, k: string)
  {
    |s| == |k| && forall i :: 0 <= i < |s| ==> LowerChar(s[i]) == k[i]
  }

  /** Lowering `s` gives `k` exactly when `s` agrees with `k` ignoring case. */
  lemma ToLowerCaseIs(s: string, k: string)
    ensures ToLowerCase(s) == k <==> LowersTo(s, k)
  {
    forall i | 0 <= i < |s|
      ensures ToLowerCase(s)[i] == LowerChar(s[i])
    {
      ToLowerCaseAt(s, i);
    }
    if LowersTo(s, k) {
      assert forall i :: 0 <= i < |s| ==> ToLowerCase(s)[i] == k[i];
    }
  }

  /** Two strings that agree ignoring case lower to the same string. */
  lemma ToLowerCaseIgnoresCase(a: string, b: string)
    requires |a| == |b|
    requires forall i :: 0 <= i < |a| ==> LowerChar(a[i]) == LowerChar(b[i])
    ensures ToLowerCase(a) == ToLowerCase(b)
  {
    forall i | 0 <= i < |a|
      ensures ToLowerCase(a)[i] == ToLowerCase(b)[i]
    {
      ToLowerCaseAt(a, i);
      ToLowerCaseAt(b, i);
    }
  }

  /** Lowering twice is lowering once. */
  lemma ToLowerCaseIdempotent(s: string)
    ensures ToLowerCase(ToLowerCase(s)) == ToLowerCase(s)
  {
    var t := ToLowerCase(s);
    forall i | 0 <= i < |s|
      ensures ToLowerCase(t)[i] == t[i]
    {
      ToLowerCaseAt(s, i);
      ToLowerCaseAt(t, i);
    }
  }
}
