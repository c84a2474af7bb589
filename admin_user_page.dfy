/**
 * The admin users page: the listing parameters it keeps in state, the
 * debounced search that rewrites them, and the table's column render rules.
 * `DEFAULT_PAGE` and `DEFAULT_PAGE_SIZE` are given as `defaultPage` and
 * `defaultPageSize`.
 */
module AdminUserPage {
  import opened Wrappers
  import opened JsText

  /** The listing request's parameters (`UserListingParams`). */
  datatype UserListingParams = UserListingParams(
    page: int, perPage: int, username: Option<string>, email: Option<string>)

  /** The state the page starts with. */
  function InitialParams(defaultPage: int, defaultPageSize: int): (p: UserListingParams)
    ensures p.page == defaultPage && p.perPage == defaultPageSize
    ensures p.username.None? && p.email.None?
  {
    UserListingParams(defaultPage, defaultPageSize, None, None)
  }

  /** `{ ...prev, username: search, email: search, page: DEFAULT_PAGE }`. */
  function WithSearch(prev: UserListingParams, search: string, defaultPage: int): (p: UserListingParams)
    ensures p.username == Some(search) && p.email == Some(search)
    ensures p.page == defaultPage
    ensures p.perPage == prev.perPage
  {
    prev.(username := Some(search), email := Some(search), page := defaultPage)
  }

  /** Applying the same search twice is applying it once. */
  lemma WithSearchIdempotent(prev: UserListingParams, search: string, defaultPage: int)
    ensures WithSearch(WithSearch(prev, search, defaultPage), search, defaultPage) == WithSearch(prev, search, defaultPage)
  {
  }

  /** Only the latest search counts: earlier ones leave no trace. */
  lemma LatestSearchWins(prev: UserListingParams, s: string, t: string, defaultPage: int)
    ensures WithSearch(WithSearch(prev, s, defaultPage), t, defaultPage) == WithSearch(prev, t, defaultPage)
  {
  }

  /** The parameters after a search depend only on that search and the page size. */
  lemma WithSearchForgetsPrevious(p: UserListingParams, q: UserListingParams, search: string, defaultPage: int)
    requires p.perPage == q.perPage
    ensures WithSearch(p, search, defaultPage) == WithSearch(q, search, defaultPage)
  {
  }

  /** The page's `params` state. */
  class AdminUserPageState {
    const defaultPage: int
    var params: UserListingParams

    constructor (defaultPage: int, defaultPageSize: int)
      ensures this.defaultPage == defaultPage
      ensures params == InitialParams(defaultPage, defaultPageSize)
    {
      this.defaultPage := defaultPage;
      params := InitialParams(defaultPage, defaultPageSize);
    }

    /** The effect run when the debounced search text changes. */
    method ApplySearch(searchDebounce: string)
      modifies this
      ensures params == WithSearch(old(params), searchDebounce, defaultPage)
      ensures params.perPage == old(params).perPage
    {
      params := params.(username := Some(searchDebounce), email := Some(searchDebounce), page := defaultPage);
    }
  }

  /** The effect first runs after the first render, with the initial
      debounced text (the empty search box), and then once per change of the
      debounced text. After mounting, both text filters are the empty string;
      after the search `s` settles they are `s`, on the first page of the
      default page size. */
  method MountThenSearch(defaultPage: int, defaultPageSize: int, s: string)
    returns (mounted: UserListingParams, searched: UserListingParams)
    ensures mounted == UserListingParams(defaultPage, defaultPageSize, Some(""), Some(""))
    ensures searched == UserListingParams(defaultPage, defaultPageSize, Some(s), Some(s))
  {
    var page := new AdminUserPageState(defaultPage, defaultPageSize);
    page.ApplySearch("");
    mounted := page.params;
    page.ApplySearch(s);
    searched := page.params;
  }

  datatype TagColor = Green | Red

  /** The Status column's tag colour. */
  function StatusColor(status: Option<string>): (c: TagColor)
    ensures c == Green <==> status == Some("ACTIVE")
  {
    if status == Some("ACTIVE") then Green else Red
  }

  /** The Points column: `${record?.wallet?.balance} MC`. */
  function PointsText(balance: Option<int>): (r: string)
    ensures |r| > 3 && r[|r| - 3..] == " MC"
    ensures balance.None? ==> r == Undefined + " MC"
    ensures balance.Some? ==> ParseInt(r[..|r| - 3]) == Some(balance.value)
  {
    if balance.Some? then
      var n := IntText(balance.value);
      IntTextRoundTrip(balance.value);
      assert (n + " MC")[..|n|] == n;
      n + " MC"
    else Undefined + " MC"
  }
}
