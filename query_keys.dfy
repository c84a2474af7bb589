/**
 * Query keys: the tuples under which the data-fetching cache stores results.
 * A key is a sequence of parts; invalidating a key marks stale every cached
 * entry whose key it is a prefix of.
 */
module QueryKeys {
  import opened Sequences

  /** One element of a key tuple: a string, or a parameter object whose
      fields are compared by value. */
  datatype KeyPart = Str(s: string) | Obj(fields: map<string, string>)

  type QueryKey = seq<KeyPart>

  /** `filter` selects `key` for invalidation, and `key` is longer. */
  predicate IsStrictPrefix(filter: QueryKey, key: QueryKey) {
    IsPrefix(filter, key) && |filter| < |key|
  }

  /** Two keys differing at a position inside a filter are not both selected. */
  lemma PrefixDisagree(filter: QueryKey, key: QueryKey, i: nat)
    requires i < |filter| && i < |key| && filter[i] != key[i]
    ensures !IsPrefix(filter, key)
  {
  }
}
