# Post card, comment keys, transaction filter and admin users page — a Dafny model

This project models the self-contained logic of a React front end for a
social content-sharing application. The model covers five source files:

- **Read-more / read-less paragraph** (`ToggleTruncateText`). A class with the
  component's three state fields: `text`, `isShowMore` and `isShowLess`. The
  mount effect and `handleToggle` are methods on it, each proved against a
  pure step function (`MountStep`, `ToggleStep`). The lemmas show that:
  - short content is shown whole, with neither link;
  - long content is cut to `content.slice(0, maxLength) + "... "`;
  - clicks alternate between the collapsed and the expanded view;
  - at most one of "Read More" and "Read Less" is ever shown;
  - expand followed by collapse returns exactly to the state right after mounting.

  `slice` is modelled with JavaScript's rule for a negative end.
- **Comment query-key factory** (`CommentKeys`, over `QueryKeys`). Keys are
  sequences of parts. The cache invalidates by prefix. The lemmas prove the
  prefix relations between the factory's keys: `all` selects every key,
  `listing()` selects every listing key and no per-post key, and the
  constructors are injective in their id.
- **Transaction filter endpoint** (`TransactionsCurrentAccount`). The endpoint
  is modelled as the template string the source builds. It is proved equal
  to a reference list of (key, value) pairs in fixed order, with the date
  range only when both dates are present and non-empty. The lemmas show that:
  - the template is exactly the path, `?` and those pairs joined by `&`;
  - splitting the query on `&` and `=` gives the pairs back when no value
    contains `&` (the splitter does not percent-decode, read `+` as a space
    or stop at `#`, so this is not what a server would read when a value
    holds `%`, `+` or `#`);
  - because nothing is escaped, a status carrying `&startDate=…&endDate=…`
    requests the same endpoint as a real date range.

  The query key comes from a factory that is not part of this model. It is
  a function parameter, and the lemma about it assumes the factory tells
  every two filters apart.
- **Post card** (`PostItem`). It contains:
  - the owner/ADMIN/STAFF visibility predicates;
  - the liked and bookmarked lookups, as first-match searches proved against
    membership;
  - the singular/plural labels;
  - the balance left after a paid download and its colour;
  - the status-update endpoint (injective in the status);
  - a class for the card's own state: the comment panel flag and the pending
    download id.
- **Admin users page** (`AdminUserPage`). A class holding the `params` state,
  with the debounced-search update proved against a pure record update (the
  update is idempotent, and the latest search wins). The effect first runs
  after the first render with the empty search box, so once mounted both
  `username` and `email` are the empty string. It also has the Status tag
  colour and the Points column text.

`JsText` states how template strings render what they interpolate: `true` and
`false`, decimal integers, and `undefined`. A decimal parser is proved to be
the inverse of the integer rendering.

Constants defined in `src/consts/common.ts` are parameters, because that file
is not part of this model: `DEFAULT_PAGE` is `defaultPage`, `DEFAULT_PAGE_SIZE`
is `defaultPageSize` and `DOWNLOAD_POINT` is `downloadPoint`. For the same
reason, `transactionKeys.currentAccount` (`src/consts/factory/transaction.ts`)
is a function parameter.

The collapsed text is the first `maxLength` characters followed by `"... "`,
so it has `maxLength + 4` characters (`ToggleTruncateText.CollapsedShape`).

Determinism of the key builders (equal inputs give equal keys) holds because
each builder is a Dafny function. No separate lemma is needed.

## Model

| member | source | states |
|---|---|---|
| `JsText.BoolText` | src/hooks/query/transaction/use-transactions-current-account.ts:28 | a boolean renders as `true` or `false`, and `true` exactly when it holds |
| `JsText.OptText` | src/hooks/query/transaction/use-transactions-current-account.ts:28 | a present value renders as itself; a missing one renders as `undefined` |
| `JsText.IntText` | src/components/post/post-item.tsx:565 | an integer renders as a non-empty string that starts with `-` exactly when it is negative and is otherwise all digits |
| `JsText.IntTextRoundTrip` | src/components/post/post-item.tsx:565 | parsing a rendered integer gives the integer back |
| `JsText.IntTextInjective` | src/components/post/post-item.tsx:575 | different counts render differently |
| `ToggleTruncateText.Slice` | src/components/post/toggle-truncate-text-typography.tsx:20 | `s.slice(0, end)` is a prefix of `s` whose length follows JavaScript's rule for a negative or too-large end |
| `ToggleTruncateText.Collapse` | src/components/post/toggle-truncate-text-typography.tsx:29 | the truncated text is the slice followed by `"... "`, and has `maxLength + 4` characters when `0 <= maxLength <= |text|` |
| `ToggleTruncateText.MountStep` | src/components/post/toggle-truncate-text-typography.tsx:26-31 | the mount effect never changes `isShowLess`, and keeps the links exclusive unless "Read Less" was already shown |
| `ToggleTruncateText.ToggleStep` | src/components/post/toggle-truncate-text-typography.tsx:14-24 | after a toggle exactly one link is shown, and "Read Less" is shown exactly when "Read More" was |
| `ToggleTruncateText.MountShortContent` | src/components/post/toggle-truncate-text-typography.tsx:10-31 | if `content.length <= maxLength`, after mount `text == content` and neither link is shown |
| `ToggleTruncateText.MountLongContent` | src/components/post/toggle-truncate-text-typography.tsx:26-30 | if `content.length > maxLength`, after mount `text` is the slice plus `"... "`, "Read More" is shown and "Read Less" is not |
| `ToggleTruncateText.CollapsedShape` | src/components/post/toggle-truncate-text-typography.tsx:29 | the collapsed text starts with the first `maxLength` characters of `content` and has length `maxLength + 4` |
| `ToggleTruncateText.ToggleWhileCollapsed` | src/components/post/toggle-truncate-text-typography.tsx:15-18 | toggling while "Read More" is shown gives `text == content`, shows "Read Less" and hides "Read More" |
| `ToggleTruncateText.ToggleWhileExpanded` | src/components/post/toggle-truncate-text-typography.tsx:19-23 | toggling otherwise truncates the current text and shows only "Read More" |
| `ToggleTruncateText.ExpandCollapseRoundTrip` | src/components/post/toggle-truncate-text-typography.tsx:14-24 | expanding gives the full text; collapsing again gives exactly the state right after mounting |
| `ToggleTruncateText.ClicksAlternate` | src/components/post/toggle-truncate-text-typography.tsx:14-31 | after `n` clicks the state is the mounted one for even `n` and the expanded one for odd `n`, and exactly one link is shown |
| `ToggleTruncateText.ReachableExclusive` | src/components/post/toggle-truncate-text-typography.tsx:42-56 | in every state a user can reach, "Read More" and "Read Less" are never both shown |
| `ToggleTruncateText.Initial` | src/components/post/toggle-truncate-text-typography.tsx:10-12 | before mounting, the full content is shown and no link can be clicked |
| `ToggleTruncateText.ToggleTruncateTextTypography.constructor` | src/components/post/toggle-truncate-text-typography.tsx:10-12 | the initial state is `text == content` with both flags false |
| `ToggleTruncateText.ToggleTruncateTextTypography.MountEffect` | src/components/post/toggle-truncate-text-typography.tsx:26-31 | the new state is the mount step of the old one; from the initial state it is the mounted state |
| `ToggleTruncateText.ToggleTruncateTextTypography.HandleToggle` | src/components/post/toggle-truncate-text-typography.tsx:14-24 | the new state is the toggle step of the old one, and the links are exclusive afterwards |
| `ToggleTruncateText.MountExpandCollapse` | src/components/post/toggle-truncate-text-typography.tsx:14-31 | on the class: mount, "Read More", "Read Less" returns to the mounted text and flags |
| `CommentKeys.All` | src/consts/factory/comment.ts:2 | `commentKeys.all` is exactly `['comments']` |
| `CommentKeys.ByPost` | src/consts/factory/comment.ts:3 | the key strictly extends `all`, has three parts, and ends with the post id |
| `CommentKeys.Listing` | src/consts/factory/comment.ts:4 | the key strictly extends `all` and has two parts |
| `CommentKeys.ListingParam` | src/consts/factory/comment.ts:5 | the key strictly extends both `all` and `listing()`; its last part is the params object, `{}` when omitted |
| `CommentKeys.ListingAnotherComment` | src/consts/factory/comment.ts:6 | the key strictly extends both `all` and `listing()`, and ends with the id |
| `CommentKeys.ListingDoesNotSelectByPost` | src/consts/factory/comment.ts:3-4 | invalidating `listing()` never selects a `byPost` key |
| `CommentKeys.ByPostIsNoListingKey` | src/consts/factory/comment.ts:3-6 | a `byPost` key equals no listing key |
| `CommentKeys.ByPostSelectsOnlyItself` | src/consts/factory/comment.ts:3 | a `byPost(a)` filter selects `byPost(b)` only when `a == b` |
| `CommentKeys.ByPostInjective` | src/consts/factory/comment.ts:3 | `byPost` is injective in the post id |
| `CommentKeys.ListingAnotherCommentInjective` | src/consts/factory/comment.ts:6 | `listingAnotherComment` is injective in the id |
| `CommentKeys.ListingParamInjective` | src/consts/factory/comment.ts:5 | two `listingParam` keys are equal exactly when their defaulted params are |
| `CommentKeys.ListingParamDefault` | src/consts/factory/comment.ts:5 | `listingParam()` equals `listingParam({})` |
| `CommentKeys.AllSelectsEveryKey` | src/consts/factory/comment.ts:1-7 | `all` is a prefix of every key the factory builds |
| `TransactionsCurrentAccount.Field` | src/hooks/query/transaction/use-transactions-current-account.ts:28 | every field renders as `undefined` when `params` is missing; a flag renders as `true` exactly when it is set and as `false` otherwise; `orderPointStatus` is interpolated verbatim |
| `TransactionsCurrentAccount.Append` | src/hooks/query/transaction/use-transactions-current-account.ts:25-26 | the date suffix is empty exactly when the two dates are not both present and non-empty |
| `TransactionsCurrentAccount.QueryPairs` | src/hooks/query/transaction/use-transactions-current-account.ts:25-28 | the query lists `viewTransaction`, `dailyPoint`, `bonusPoint`, `orderPoint`, `orderPointStatus` in that order, then `startDate` and `endDate` only under a date range |
| `TransactionsCurrentAccount.EndpointStart` | src/hooks/query/transaction/use-transactions-current-account.ts:28 | the endpoint always begins `/utility/filter-transaction?viewTransaction=` |
| `TransactionsCurrentAccount.EndpointIsQuery` | src/hooks/query/transaction/use-transactions-current-account.ts:25-28 | the template `Endpoint` is the path, `?` and the query's pairs joined by `&` |
| `TransactionsCurrentAccount.EndpointWithoutDates` | src/hooks/query/transaction/use-transactions-current-account.ts:25-28 | without a date range, the endpoint ends with `&orderPointStatus=` and its value |
| `TransactionsCurrentAccount.EndpointWithDates` | src/hooks/query/transaction/use-transactions-current-account.ts:25-28 | with a date range, the endpoint ends with `&startDate=<s>&endDate=<e>` |
| `TransactionsCurrentAccount.DecodeQueryString` | src/hooks/query/transaction/use-transactions-current-account.ts:28 | splitting joined pairs on `&` and `=` gives them back when no key holds `=` or `&` and no value holds `&` |
| `TransactionsCurrentAccount.EndpointDecodes` | src/hooks/query/transaction/use-transactions-current-account.ts:25-28 | splitting the endpoint's query on `&` and `=` gives exactly the filter's pairs when no interpolated value contains `&` |
| `TransactionsCurrentAccount.StatusCanCarryDateRange` | src/hooks/query/transaction/use-transactions-current-account.ts:28 | values are not escaped: folding the date range into `orderPointStatus` gives a different filter with the same endpoint |
| `TransactionsCurrentAccount.KeyDeterminesEndpoint` | src/hooks/query/transaction/use-transactions-current-account.ts:45-46 | for a key factory that tells every two filters apart, equal query keys fetch the same endpoint |
| `TransactionsCurrentAccount.MissingParamsEndpointDiffers` | src/hooks/query/transaction/use-transactions-current-account.ts:28 | a missing `params` requests a different endpoint from every present filter (`viewTransaction=undefined` against `true` or `false`), so the key must tell them apart |
| `PostItem.PrivilegedSeesBoth` | src/components/post/post-item.tsx:253-260 | ADMIN and STAFF may see both the actions menu and Report, whoever owns the post |
| `PostItem.OthersSeeExactlyOne` | src/components/post/post-item.tsx:253-260 | for any other role, the menu shows for the owner, Report shows for a non-owner, and exactly one of them shows |
| `PostItem.ControlsShown` | src/components/post/post-item.tsx:130-132 | the actions menu (line 334) never shows without `showActions`, and Report (lines 534, 602) never without `showLike`; with both props at their default `true`, a viewer who is neither ADMIN nor STAFF gets exactly one of the two |
| `PostItem.SignedOutOwnsOwnerlessPost` | src/components/post/post-item.tsx:256 | a missing viewer id equals a missing owner id, so the menu shows and Report does not |
| `PostItem.FindUpvote` | src/components/post/post-item.tsx:538-541 | the result is the first upvote with the post's id and the viewer's account id, or none when no upvote matches |
| `PostItem.IsLikedIff` | src/components/post/post-item.tsx:538-541 | the post shows as liked exactly when the loaded upvotes hold one with the same post id and the same account id |
| `PostItem.FindBookmark` | src/components/post/post-item.tsx:581 | the result is the first bookmark with the post's id, or none when no bookmark has it |
| `PostItem.IsBookmarkedIff` | src/components/post/post-item.tsx:581 | the post shows as bookmarked exactly when the loaded bookmarks hold its id; the account is not checked |
| `PostItem.CountLabel` | src/components/post/post-item.tsx:565 | the label is the rendered count, a space, then the plural word exactly when the count exceeds one |
| `PostItem.CountLabelReadsBack` | src/components/post/post-item.tsx:575 | the label's number parses back to the count, and its word is plural exactly when the count exceeds one |
| `PostItem.LabelWords` | src/components/post/post-item.tsx:565-575 | the like and comment labels end in "Likes"/"Comments" exactly when the count exceeds one, else in "Like"/"Comment" |
| `PostItem.LabelsForSmallCounts` | src/components/post/post-item.tsx:565-575 | counts 0 and 1 show "Like" and "Comment" |
| `PostItem.Remaining` | src/components/post/post-item.tsx:508 | remaining balance plus the download price is the balance; a missing balance counts as 0 |
| `PostItem.RedIffInsufficient` | src/components/post/post-item.tsx:492-506 | the remaining balance is red exactly when the balance (or 0) is below the download price |
| `PostItem.RemainingText` | src/components/post/post-item.tsx:508 | the text ends in ` MC`, and what precedes it parses back to the remaining balance |
| `PostItem.StatusEndpoint` | src/components/post/post-item.tsx:277-288 | the endpoint starts `/post/update/<id>/status?status`, where `<id>` is the route param or `undefined` |
| `PostItem.StatusEndpointCases` | src/components/post/post-item.tsx:277-288 | `'Hide'` gives `/post/update/<id>/status?status/hidden`; any other status gives `.../status?status=<status>` |
| `PostItem.StatusPathInjective` | src/components/post/post-item.tsx:280-285 | different statuses give different `url` suffixes |
| `PostItem.StatusEndpointInjective` | src/components/post/post-item.tsx:280-288 | different statuses are sent to different endpoints |
| `PostItem.PostItemState.constructor` | src/components/post/post-item.tsx:159-160 | the comment panel starts at `showComment`, and no download is pending |
| `PostItem.PostItemState.HandleComment` | src/components/post/post-item.tsx:249-251 | the panel flag is negated and nothing else changes |
| `PostItem.PostItemState.ConfirmDownload` | src/components/post/post-item.tsx:514-516 | the pending download becomes the post's id |
| `PostItem.PostItemState.DownloadSucceeded` | src/components/post/post-item.tsx:264-268 | the pending download is cleared |
| `PostItem.CommentTwice` | src/components/post/post-item.tsx:249-251 | one click shows the opposite panel state and two clicks restore the original; the panel (line 612) never shows while `hideComment` is set |
| `PostItem.DownloadRoundTrip` | src/components/post/post-item.tsx:264-268 | confirming then succeeding leaves no download pending |
| `AdminUserPage.InitialParams` | src/pages/admin/user/index.tsx:24 | the initial params are page `DEFAULT_PAGE` and page size `DEFAULT_PAGE_SIZE`, with no text filters |
| `AdminUserPage.WithSearch` | src/pages/admin/user/index.tsx:30 | a search `s` sets `username` and `email` to `s` and the page to `DEFAULT_PAGE`, keeping `perPage` |
| `AdminUserPage.WithSearchIdempotent` | src/pages/admin/user/index.tsx:30 | applying the same search twice gives the same params as applying it once |
| `AdminUserPage.LatestSearchWins` | src/pages/admin/user/index.tsx:29-31 | a later search overrides an earlier one completely |
| `AdminUserPage.WithSearchForgetsPrevious` | src/pages/admin/user/index.tsx:30 | after a search the params depend only on the search and `perPage` |
| `AdminUserPage.AdminUserPageState.constructor` | src/pages/admin/user/index.tsx:24 | the params state starts at the initial params |
| `AdminUserPage.AdminUserPageState.ApplySearch` | src/pages/admin/user/index.tsx:29-31 | the new params are the search update of the old ones |
| `AdminUserPage.MountThenSearch` | src/pages/admin/user/index.tsx:24-31 | after mounting the filters are both the empty search; after a search `s` they are both `s`, on the default page and page size |
| `AdminUserPage.StatusColor` | src/pages/admin/user/index.tsx:99 | the tag is green exactly when the status is `'ACTIVE'`, otherwise red |
| `AdminUserPage.PointsText` | src/pages/admin/user/index.tsx:86 | the cell ends in ` MC`; it reads back as the balance, or is `undefined MC` when there is none |

## Left out

- Network and cache: `request`, `put`, the mutation hooks, `invalidateQueries`, `keepPreviousData` and the response envelope belong to the HTTP client and the data-fetching library. The prefix rule in `Sequences.IsPrefix` compares key parts exactly. The library's partial matching of parameter objects is not modelled.
- TransactionsCurrentAccount.KeyDeterminesEndpoint: `transactionKeys.currentAccount` is defined in `src/consts/factory/transaction.ts`, which is not part of this model. The lemma assumes the key carries `params` verbatim, that is, that the factory is injective. A factory that dropped `params` would break the property.
- TransactionsCurrentAccount.EndpointDecodes: the decoder only splits on `&` and `=`. It does not percent-decode, turn `+` into a space or stop at `#`, so for values holding `%`, `+` or `#` a server reads something other than the pairs this lemma gives back.
- A key's parameter object is modelled as a map from strings to strings. Nested or non-string values are not modelled.
- Browser effects: `useDownloadZip`, clipboard writes, `window.open`, `window.location.reload` and navigation need the DOM. `DownloadSucceeded` models only the clearing of `downloadPostId`.
- `getFileNameFromUrl` depends on a regular expression, the `URL` constructor and `decodeURIComponent`, all library code.
- The routing table, the admin menu, the bookmarks page and the forgot-password form are presentation and wiring.
- Timing and rendering:
  - the 500 ms debounce, and moment/dayjs date formatting, need a clock. The debounced text is taken to start as the search box's initial empty text (`src/hooks/use-debounce.ts` is not part of this model);
  - React re-renders and prop changes are not modelled: the toggle's effect is modelled at mount only, for a fixed `content`;
  - HTML rendering through `dangerouslySetInnerHTML`, and markup-aware truncation, are not modelled.
- A string's length is its number of Dafny characters. JavaScript counts UTF-16 code units, so a slice that splits a surrogate pair is not modelled.
- `maxLength`, counts and balances are integers. JavaScript numbers can also be fractional, `NaN` or infinite. Integers from 10^21 upward render in exponent form, which `JsText.IntText` does not model.
- `handleUpdateStatus` is modelled only by the endpoint it builds. The request, the reload and the messages are I/O. The `id` route parameter comes from the router and is a parameter here.
- A role check only shows or hides part of the UI. It is modelled as a predicate, not as an access-control rule.
- Values whose TypeScript type is a boolean or a string are modelled with that type. Other values a caller could pass at run time are not modelled.
