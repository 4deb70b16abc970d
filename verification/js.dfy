/** JavaScript value semantics that the modelled components rely on:
    nullish values and the `??` operator, the truthiness of an optional
    string, `String.prototype.startsWith` and the characters a regular
    expression's `.` refuses. */
module Js {

  /** A value that may be `undefined` (or `null`): `None` is the nullish case. */
  datatype Option<T> = None | Some(value: T)

  /** The nullish-coalescing operator `m ?? fallback`: only a nullish left
      operand is replaced, so falsy values such as `""` or `false` are kept. */
  function Coalesce<T>(m: Option<T>, fallback: T): (r: T)
    ensures m.Some? ==> r == m.value
    ensures m.None? ==> r == fallback
  {
    match m
    case Some(v) => v
    case None => fallback
  }

  /** Truthiness of an optional string: `undefined` and `""` are falsy,
      every other string is truthy. */
  predicate Truthy(m: Option<string>)
  {
    m.Some? && m.value != ""
  }

  /** `s.startsWith(search)` as section 22.1.3.23 of ECMA-262 defines it
      (start position 0): the first |search| characters of `s` are `search`. */
  predicate StartsWith(s: string, search: string)
  {
    |search| <= |s| && s[..|search|] == search
  }

  /** Every extension of a string keeps every prefix it already had. */
  lemma StartsWithExtends(s: string, search: string, more: string)
    requires StartsWith(s, search)
    ensures StartsWith(s + more, search)
  {
  }

  /** `search + rest` always starts with `search`. */
  lemma StartsWithConcat(search: string, rest: string)
    ensures StartsWith(search + rest, search)
  {
  }

  /** The line terminators of section 12.3 of ECMA-262: the characters a
      regular expression's `.` does not match without the `s` flag. */
  predicate IsLineTerminator(c: char)
  {
    c == '\n' || c == '\r' || c == '\U{2028}' || c == '\U{2029}'
  }

  /** The character is a single UTF-16 code unit (it lies in the Basic
      Multilingual Plane); characters above it take a surrogate pair. */
  predicate IsOneCodeUnit(c: char)
  {
    c < '\U{10000}'
  }
}
