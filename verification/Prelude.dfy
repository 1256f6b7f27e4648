/** Shared value types. */
module Prelude {

  /** An optional value: a nullable column, a possibly absent row. */
  datatype Option<+T> = None | Some(value: T)

  /** Identifiers are opaque texts (UUIDs in the database). */
  type Id = string

  /** Taking one element out of a sequence. */
  lemma MultisetWithout<T>(s: seq<T>, i: nat)
    requires i < |s|
    ensures multiset(s) == multiset(s[..i] + s[i + 1..]) + multiset{s[i]}
    ensures multiset(s[..i] + s[i + 1..]) == multiset(s) - multiset{s[i]}
  {
    assert s == s[..i] + ([s[i]] + s[i + 1..]);
  }
}
