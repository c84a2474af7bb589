/**
 * The decision logic of a post card: who sees the actions menu and the
 * Report button, whether the post shows as liked or bookmarked, the
 * singular/plural labels, the balance left after a paid download, the
 * endpoint that changes a post's status, and the card's own state (the
 * comment panel and the post being downloaded).
 */
module PostItem {
  import opened Wrappers
  import opened JsText

  /** The signed-in account (`accountInfo`): its id and role name, each of
      which may be missing. */
  datatype AccountInfo = AccountInfo(accountId: Option<string>, roleName: Option<string>)

  /** The post shown by the card; `ownerId` is `data.account.accountId`. */
  datatype Post = Post(postId: string, ownerId: Option<string>, upvoteCount: int, commentCount: int)

  /** An upvote as listed by the backend: the post and account it links. */
  datatype Upvote = Upvote(postId: Option<string>, accountId: Option<string>)

  /** A bookmark of the signed-in account. */
  datatype Bookmark = Bookmark(postId: Option<string>)

  /** `accountInfo?.role?.name`. */
  function RoleName(viewer: Option<AccountInfo>): Option<string> {
    if viewer.Some? then viewer.value.roleName else None
  }

  /** `accountInfo?.accountId`. */
  function ViewerId(viewer: Option<AccountInfo>): Option<string> {
    if viewer.Some? then viewer.value.accountId else None
  }

  /** ADMIN and STAFF see every post's menu and Report button. */
  predicate IsPrivileged(viewer: Option<AccountInfo>) {
    RoleName(viewer) == Some("ADMIN") || RoleName(viewer) == Some("STAFF")
  }

  /** `post.account?.accountId === accountInfo?.accountId`; two missing ids are equal. */
  predicate IsOwner(viewer: Option<AccountInfo>, post: Post) {
    post.ownerId == ViewerId(viewer)
  }

  /** `isAllowShowActions`. */
  predicate IsAllowShowActions(viewer: Option<AccountInfo>, post: Post) {
    IsPrivileged(viewer) || IsOwner(viewer, post)
  }

  /** `isAllowShowReport`. */
  predicate IsAllowShowReport(viewer: Option<AccountInfo>, post: Post) {
    IsPrivileged(viewer) || !IsOwner(viewer, post)
  }

  /** The actions menu is rendered when the card allows actions and the viewer may see them. */
  predicate ShowsActionsMenu(showActions: bool, viewer: Option<AccountInfo>, post: Post) {
    showActions && IsAllowShowActions(viewer, post)
  }

  /** The Report button sits in the like bar, so it also needs `showLike`. */
  predicate ShowsReport(showLike: bool, viewer: Option<AccountInfo>, post: Post) {
    showLike && IsAllowShowReport(viewer, post)
  }

  /** The menu needs the `showActions` prop and the Report button the
      `showLike` prop, on top of the role and ownership rules. With both
      props at their default `true`, a viewer who is neither ADMIN nor
      STAFF gets exactly one of the two controls. */
  lemma ControlsShown(showActions: bool, showLike: bool, viewer: Option<AccountInfo>, post: Post)
    ensures !showActions ==> !ShowsActionsMenu(showActions, viewer, post)
    ensures !showLike ==> !ShowsReport(showLike, viewer, post)
    ensures showActions && showLike && !IsPrivileged(viewer) ==>
              ShowsActionsMenu(showActions, viewer, post) != ShowsReport(showLike, viewer, post)
  {
  }

  /** ADMIN and STAFF see both the menu and Report, whoever owns the post. */
  lemma PrivilegedSeesBoth(viewer: Option<AccountInfo>, post: Post)
    requires IsPrivileged(viewer)
    ensures IsAllowShowActions(viewer, post) && IsAllowShowReport(viewer, post)
  {
  }

  /** Any other viewer sees exactly one of them: the menu on their own post,
      Report on anyone else's. */
  lemma OthersSeeExactlyOne(viewer: Option<AccountInfo>, post: Post)
    requires !IsPrivileged(viewer)
    ensures IsAllowShowActions(viewer, post) <==> IsOwner(viewer, post)
    ensures IsAllowShowReport(viewer, post) <==> !IsOwner(viewer, post)
    ensures IsAllowShowActions(viewer, post) != IsAllowShowReport(viewer, post)
  {
  }

  /** A signed-out viewer counts as the owner of a post whose account is missing. */
  lemma SignedOutOwnsOwnerlessPost(post: Post)
    requires post.ownerId.None?
    ensures IsAllowShowActions(None, post) && !IsAllowShowReport(None, post)
  {
  }

  /** The upvote belongs to this post and to the signed-in account. */
  predicate UpvoteMatches(u: Upvote, viewer: Option<AccountInfo>, post: Post) {
    u.postId == Some(post.postId) && u.accountId == ViewerId(viewer)
  }

  /** `upvotes.find(...)`: the first matching upvote, if any. */
  function FindUpvote(upvotes: seq<Upvote>, viewer: Option<AccountInfo>, post: Post): (r: Option<nat>)
    ensures r.Some? ==> r.value < |upvotes| && UpvoteMatches(upvotes[r.value], viewer, post)
    ensures r.Some? ==> forall j :: 0 <= j < r.value ==> !UpvoteMatches(upvotes[j], viewer, post)
    ensures r.None? <==> forall j :: 0 <= j < |upvotes| ==> !UpvoteMatches(upvotes[j], viewer, post)
    decreases |upvotes|
  {
    if |upvotes| == 0 then None
    else if UpvoteMatches(upvotes[0], viewer, post) then Some(0)
    else
      match FindUpvote(upvotes[1..], viewer, post)
      case None => None
      case Some(i) => Some(i + 1)
  }

  /** The like icon is filled: the upvote list has loaded and holds an upvote
      of this post by this account. */
  predicate IsLiked(upvotes: Option<seq<Upvote>>, viewer: Option<AccountInfo>, post: Post) {
    upvotes.Some? && FindUpvote(upvotes.value, viewer, post).Some?
  }

  lemma IsLikedIff(upvotes: Option<seq<Upvote>>, viewer: Option<AccountInfo>, post: Post)
    ensures IsLiked(upvotes, viewer, post) <==>
              upvotes.Some? && exists u :: u in upvotes.value && u.postId == Some(post.postId) && u.accountId == ViewerId(viewer)
  {
    if upvotes.Some? {
      var us := upvotes.value;
      if u :| u in us && u.postId == Some(post.postId) && u.accountId == ViewerId(viewer) {
        var j :| 0 <= j < |us| && us[j] == u;
        assert UpvoteMatches(us[j], viewer, post);
      }
      if IsLiked(upvotes, viewer, post) {
        var i := FindUpvote(us, viewer, post).value;
        assert us[i] in us;
      }
    }
  }

  /** `bookmarks.find(...)`: the first bookmark of this post, if any. The
      account is not checked. */
  function FindBookmark(bookmarks: seq<Bookmark>, post: Post): (r: Option<nat>)
    ensures r.Some? ==> r.value < |bookmarks| && bookmarks[r.value].postId == Some(post.postId)
    ensures r.Some? ==> forall j :: 0 <= j < r.value ==> bookmarks[j].postId != Some(post.postId)
    ensures r.None? <==> forall j :: 0 <= j < |bookmarks| ==> bookmarks[j].postId != Some(post.postId)
    decreases |bookmarks|
  {
    if |bookmarks| == 0 then None
    else if bookmarks[0].postId == Some(post.postId) then Some(0)
    else
      match FindBookmark(bookmarks[1..], post)
      case None => None
      case Some(i) => Some(i + 1)
  }

  /** The bookmark icon is filled. */
  predicate IsBookmarked(bookmarks: Option<seq<Bookmark>>, post: Post) {
    bookmarks.Some? && FindBookmark(bookmarks.value, post).Some?
  }

  lemma IsBookmarkedIff(bookmarks: Option<seq<Bookmark>>, post: Post)
    ensures IsBookmarked(bookmarks, post) <==> bookmarks.Some? && Bookmark(Some(post.postId)) in bookmarks.value
  {
    if bookmarks.Some? {
      var bs := bookmarks.value;
      if Bookmark(Some(post.postId)) in bs {
        var j :| 0 <= j < |bs| && bs[j] == Bookmark(Some(post.postId));
        assert bs[j].postId == Some(post.postId);
      }
      if IsBookmarked(bookmarks, post) {
        var i := FindBookmark(bs, post).value;
        assert bs[i] == Bookmark(Some(post.postId));
      }
    }
  }

  /** `${count} ${count > 1 ? plural : singular}`. */
  function CountLabel(count: int, singular: string, plural: string): (r: string)
    ensures var n := IntText(count); |n| < |r| && r[..|n|] == n && r[|n|] == ' '
    ensures r[|IntText(count)| + 1..] == if count > 1 then plural else singular
  {
    IntText(count) + " " + (if count > 1 then plural else singular)
  }

  function LikeLabel(post: Post): string {
    CountLabel(post.upvoteCount, "Like", "Likes")
  }

  function CommentLabel(post: Post): string {
    CountLabel(post.commentCount, "Comment", "Comments")
  }

  /** The label's number reads back as the count, and its word is plural
      exactly when the count exceeds one. */
  lemma CountLabelReadsBack(count: int, singular: string, plural: string)
    requires singular != plural
    ensures var r := CountLabel(count, singular, plural);
            exists k :: 0 < k < |r| && ParseInt(r[..k]) == Some(count) && r[k] == ' '
                        && (r[k + 1..] == plural <==> count > 1)
  {
    var r := CountLabel(count, singular, plural);
    var k := |IntText(count)|;
    IntTextRoundTrip(count);
    assert r[..k] == IntText(count);
  }

  /** The like and comment labels end in the plural word exactly when the
      count exceeds one. */
  lemma LabelWords(post: Post)
    ensures LikeLabel(post)[|IntText(post.upvoteCount)| + 1..] ==
              if post.upvoteCount > 1 then "Likes" else "Like"
    ensures CommentLabel(post)[|IntText(post.commentCount)| + 1..] ==
              if post.commentCount > 1 then "Comments" else "Comment"
  {
  }

  /** Zero and one take the singular word. */
  lemma LabelsForSmallCounts(post: Post)
    requires post.upvoteCount <= 1 && post.commentCount <= 1
    ensures LikeLabel(post)[|IntText(post.upvoteCount)| + 1..] == "Like"
    ensures CommentLabel(post)[|IntText(post.commentCount)| + 1..] == "Comment"
  {
  }

  /** `(wallet?.balance || 0) - (DOWNLOAD_POINT || 0)`: a missing balance counts as 0. */
  function Remaining(balance: Option<int>, downloadPoint: int): (r: int)
    ensures balance.Some? ==> r + downloadPoint == balance.value
    ensures balance.None? ==> r == -downloadPoint
  {
    balance.GetOr(0) - downloadPoint
  }

  datatype TextColor = Red | Black

  /** The colour of the "Remaining" line in the download dialog. */
  function RemainingColor(balance: Option<int>, downloadPoint: int): TextColor {
    if Remaining(balance, downloadPoint) < 0 then Red else Black
  }

  /** The remaining balance is red exactly when the wallet holds fewer
      points than a download costs. */
  lemma RedIffInsufficient(balance: Option<int>, downloadPoint: int)
    ensures RemainingColor(balance, downloadPoint) == Red <==> balance.GetOr(0) < downloadPoint
  {
  }

  /** `${remaining} MC`. */
  function RemainingText(balance: Option<int>, downloadPoint: int): (r: string)
    ensures |r| >= 3 && r[|r| - 3..] == " MC"
    ensures ParseInt(r[..|r| - 3]) == Some(Remaining(balance, downloadPoint))
  {
    var n := IntText(Remaining(balance, downloadPoint));
    IntTextRoundTrip(Remaining(balance, downloadPoint));
    assert (n + " MC")[..|n|] == n;
    n + " MC"
  }

  /** The part of the status URL after `/post/update/<id>/`. */
  function StatusPath(status: string): string {
    if status == "Hide" then "status?status/hidden" else "status?status=" + status
  }

  /** The endpoint `handleUpdateStatus` sends to; `routeId` is the `id`
      route parameter, rendered `undefined` when the route has none. */
  function StatusEndpoint(routeId: Option<string>, status: string): (r: string)
    ensures var head := "/post/update/" + OptText(routeId) + "/status?status";
            |head| < |r| && r[..|head|] == head
  {
    "/post/update/" + OptText(routeId) + "/" + StatusPath(status)
  }

  /** `'Hide'` selects `status/hidden`; any other status is sent as `status=<status>`. */
  lemma StatusEndpointCases(routeId: Option<string>, status: string)
    ensures status == "Hide" ==> StatusEndpoint(routeId, status) == "/post/update/" + OptText(routeId) + "/status?status/hidden"
    ensures status != "Hide" ==> StatusEndpoint(routeId, status) == "/post/update/" + OptText(routeId) + "/status?status=" + status
  {
  }

  /** Different statuses give different status paths: `Hide` is the only one
      followed by `/`, every other is followed by `=` and itself. */
  lemma StatusPathInjective(s: string, t: string)
    requires StatusPath(s) == StatusPath(t)
    ensures s == t
  {
    var q := "status?status";
    assert StatusPath(s)[|q|] == (if s == "Hide" then '/' else '=');
    assert StatusPath(t)[|q|] == (if t == "Hide" then '/' else '=');
    if s != "Hide" {
      assert StatusPath(s)[|q| + 1..] == s;
      assert StatusPath(t)[|q| + 1..] == t;
    }
  }

  /** Different statuses are sent to different endpoints. */
  lemma StatusEndpointInjective(routeId: Option<string>, s: string, t: string)
    requires StatusEndpoint(routeId, s) == StatusEndpoint(routeId, t)
    ensures s == t
  {
    var head := "/post/update/" + OptText(routeId) + "/";
    assert StatusEndpoint(routeId, s) == head + StatusPath(s);
    assert StatusEndpoint(routeId, t) == head + StatusPath(t);
    assert StatusPath(s) == (head + StatusPath(s))[|head|..];
    assert StatusPath(t) == (head + StatusPath(t))[|head|..];
    StatusPathInjective(s, t);
  }

  /** The card's local state. */
  class PostItemState {
    /** `hideComment`: the comment panel never shows when set. */
    const hideComment: bool
    var isShowComment: bool
    var downloadPostId: Option<string>

    /** The first render, from the `showComment` and `hideComment` props. */
    constructor (showComment: bool, hideComment: bool)
      ensures isShowComment == showComment && this.hideComment == hideComment
      ensures downloadPostId == None
    {
      this.hideComment := hideComment;
      isShowComment := showComment;
      downloadPostId := None;
    }

    /** The comment panel is rendered. */
    predicate ShowsCommentPanel()
      reads this
    {
      isShowComment && !hideComment
    }

    /** `handleComment`: flip the comment panel. */
    method HandleComment()
      modifies this
      ensures isShowComment == !old(isShowComment)
      ensures downloadPostId == old(downloadPostId)
    {
      isShowComment := !isShowComment;
    }

    /** The download dialog was confirmed for `postId`. */
    method ConfirmDownload(postId: string)
      modifies this
      ensures downloadPostId == Some(postId)
      ensures isShowComment == old(isShowComment)
    {
      downloadPostId := Some(postId);
    }

    /** The download succeeded: the file is opened elsewhere and the pending id cleared. */
    method DownloadSucceeded()
      modifies this
      ensures downloadPostId == None
      ensures isShowComment == old(isShowComment)
    {
      downloadPostId := None;
    }
  }

  /** Two clicks on the comment button restore the panel to where it started. */
  method CommentTwice(showComment: bool, hideComment: bool) returns (afterOne: bool, afterTwo: bool)
    ensures afterOne == (!showComment && !hideComment)
    ensures afterTwo == (showComment && !hideComment)
  {
    var card := new PostItemState(showComment, hideComment);
    card.HandleComment();
    afterOne := card.ShowsCommentPanel();
    card.HandleComment();
    afterTwo := card.ShowsCommentPanel();
  }

  /** Confirming a download and its success leave no download pending. */
  method DownloadRoundTrip(showComment: bool, postId: string) returns (pending: Option<string>, done: Option<string>)
    ensures pending == Some(postId)
    ensures done == None
  {
    var card := new PostItemState(showComment, false);
    card.ConfirmDownload(postId);
    pending := card.downloadPostId;
    card.DownloadSucceeded();
    done := card.downloadPostId;
  }
}
