/** Facts about sequences shared by the string and query-key models. */
module Sequences {

  /** True when `p` is a prefix of `s`. */
  predicate IsPrefix<T(==)>(p: seq<T>, s: seq<T>) {
    |p| <= |s| && s[..|p|] == p
  }
}
