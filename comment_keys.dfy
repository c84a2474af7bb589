/**
 * The comment query-key factory: every key is `['comments', ...]`, and the
 * listing keys all extend `['comments', 'listing']`, so invalidating the
 * listing refreshes every listing and no per-post key.
 */
module CommentKeys {
  import opened Wrappers
  import opened QueryKeys
  import opened Sequences

  /** `commentKeys.all`. */
  function All(): (k: QueryKey)
    ensures k == [Str("comments")]
  {
    [Str("comments")]
  }

  /** `commentKeys.byPost(postId)`. */
  function ByPost(postId: string): (k: QueryKey)
    ensures IsStrictPrefix(All(), k)
    ensures |k| == 3 && k[|k| - 1] == Str(postId)
  {
    All() + [Str("byPost"), Str(postId)]
  }

  /** `commentKeys.listing()`. */
  function Listing(): (k: QueryKey)
    ensures IsStrictPrefix(All(), k)
    ensures |k| == 2
  {
    All() + [Str("listing")]
  }

  /** `commentKeys.listingParam(params)`; an omitted (`undefined`) argument
      takes the default `{}`. */
  function ListingParam(params: Option<map<string, string>>): (k: QueryKey)
    ensures IsStrictPrefix(All(), k)
    ensures IsStrictPrefix(Listing(), k)
    ensures |k| == 3 && k[2] == Obj(params.GetOr(map[]))
  {
    All() + [Str("listing"), Obj(params.GetOr(map[]))]
  }

  /** `commentKeys.listingAnotherComment(id)`. */
  function ListingAnotherComment(id: string): (k: QueryKey)
    ensures IsStrictPrefix(All(), k)
    ensures IsStrictPrefix(Listing(), k)
    ensures |k| == 4 && k[|k| - 1] == Str(id)
  {
    All() + [Str("listing"), Str("another-comment"), Str(id)]
  }

  /** Invalidating the listing never touches a per-post key: their second
      parts are `'byPost'` and `'listing'`. */
  lemma ListingDoesNotSelectByPost(postId: string)
    ensures !IsPrefix(Listing(), ByPost(postId))
  {
    PrefixDisagree(Listing(), ByPost(postId), 1);
  }

  /** Listing keys and per-post keys never coincide. */
  lemma ByPostIsNoListingKey(postId: string, params: Option<map<string, string>>, id: string)
    ensures ByPost(postId) != ListingParam(params)
    ensures ByPost(postId) != ListingAnotherComment(id)
    ensures ByPost(postId) != Listing()
  {
    assert ByPost(postId)[1] != ListingParam(params)[1];
  }

  /** A per-post key selects only itself among the factory's keys. */
  lemma ByPostSelectsOnlyItself(postId: string, other: string)
    requires IsPrefix(ByPost(postId), ByPost(other))
    ensures postId == other
  {
    assert ByPost(other)[..3] == ByPost(other);
    assert ByPost(postId)[2] == ByPost(other)[2];
  }

  lemma ByPostInjective(a: string, b: string)
    requires ByPost(a) == ByPost(b)
    ensures a == b
  {
    assert ByPost(a)[2] == ByPost(b)[2];
  }

  lemma ListingAnotherCommentInjective(a: string, b: string)
    requires ListingAnotherComment(a) == ListingAnotherComment(b)
    ensures a == b
  {
    assert ListingAnotherComment(a)[3] == ListingAnotherComment(b)[3];
  }

  /** Parameterised listing keys are equal exactly when their (defaulted)
      parameter objects are. */
  lemma ListingParamInjective(p: Option<map<string, string>>, q: Option<map<string, string>>)
    ensures ListingParam(p) == ListingParam(q) <==> p.GetOr(map[]) == q.GetOr(map[])
  {
    if ListingParam(p) == ListingParam(q) {
      assert ListingParam(p)[2] == ListingParam(q)[2];
    }
  }

  /** `listingParam()` with no argument is `listingParam({})`. */
  lemma ListingParamDefault()
    ensures ListingParam(None) == ListingParam(Some(map[]))
  {
  }

  /** `commentKeys.all` selects every key the factory builds. */
  lemma AllSelectsEveryKey(postId: string, params: Option<map<string, string>>, id: string)
    ensures IsPrefix(All(), ByPost(postId)) && IsPrefix(All(), Listing())
    ensures IsPrefix(All(), ListingParam(params)) && IsPrefix(All(), ListingAnotherComment(id))
  {
  }
}
