/** Small value types and text predicates shared by every model module. */
module Prelude {
  datatype Option<+T> = None | Some(value: T)

  datatype Result<+T, +E> = Ok(value: T) | Err(error: E)

  type Id = nat

  // Instants and durations are whole seconds on one time line.
  type Time = int

  // The Unicode White_Space property, which is what trimming removes.
  predicate IsWhitespace(c: char) {
    || '\U{0009}' <= c <= '\U{000D}' || c == ' ' || c == '\U{0085}' || c == '\U{00A0}'
    || c == '\U{1680}' || '\U{2000}' <= c <= '\U{200A}' || c == '\U{2028}' || c == '\U{2029}'
    || c == '\U{202F}' || c == '\U{205F}' || c == '\U{3000}'
  }

  // Empty after trimming.
  predicate Blank(s: string) {
    forall c | c in s :: IsWhitespace(c)
  }

  function ToSet<T>(s: seq<T>): (r: set<T>) {
    set x | x in s
  }

  ghost predicate AgreeAt<K, V>(a: map<K, V>, b: map<K, V>, k: K) {
    (k in a <==> k in b) && (k in a ==> a[k] == b[k])
  }

  lemma AgreeEverywhere<K, V>(a: map<K, V>, b: map<K, V>)
    requires forall k: K :: AgreeAt(a, b, k)
    ensures a == b
  {
    forall k ensures k in a <==> k in b { assert AgreeAt(a, b, k); }
    forall k | k in a ensures a[k] == b[k] { assert AgreeAt(a, b, k); }
  }

  predicate Distinct<T(==)>(s: seq<T>) {
    forall i, j | 0 <= i < j < |s| :: s[i] != s[j]
  }
}
