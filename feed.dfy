/** The home feed (widgets/feed/ui/feed.tsx): pages of five posts appended
    without repeating a post already shown, the `page` / `hasMore` paging
    state, and the like and save buttons' updates of one post. */
module Feed {
  import opened Common
  import opened Types

  const PageSize := 5

  function Ids(posts: seq<Post>): (r: set<string>)
    ensures forall i :: 0 <= i < |posts| ==> posts[i].id in r
    ensures forall id :: id in r ==> exists i :: 0 <= i < |posts| && posts[i].id == id
  {
    set i | 0 <= i < |posts| :: posts[i].id
  }

  function NotShown(ids: set<string>): Post -> bool {
    (p: Post) => p.id !in ids
  }

  /** No two posts share an id. */
  predicate DistinctIds(posts: seq<Post>) {
    forall i, j :: 0 <= i < j < |posts| ==> posts[i].id != posts[j].id
  }

  /** The `setPosts` updater: the fetched posts whose id is not yet shown are
      appended in page order; when there are none the list is kept as is. */
  function MergePage(prev: seq<Post>, data: seq<Post>): (r: seq<Post>)
    ensures r == prev + Filter(NotShown(Ids(prev)), data)
    ensures forall i :: |prev| <= i < |r| ==> r[i].id !in Ids(prev) && r[i] in data
  {
    var unseen := Filter(NotShown(Ids(prev)), data);
    if unseen == [] then prev else prev + unseen
  }

  /** After the merge every fetched post's id is shown, and every shown post
      is still shown. */
  lemma MergeShowsWholePage(prev: seq<Post>, data: seq<Post>)
    ensures Ids(MergePage(prev, data)) == Ids(prev) + Ids(data)
  {
    var r := MergePage(prev, data);
    var unseen := Filter(NotShown(Ids(prev)), data);
    forall i | 0 <= i < |data| ensures data[i].id in Ids(r) {
      if data[i].id !in Ids(prev) {
        assert data[i] in unseen;
        var k :| 0 <= k < |unseen| && unseen[k] == data[i];
        assert r[|prev| + k] == data[i];
      } else {
        var k :| 0 <= k < |prev| && prev[k].id == data[i].id;
        assert r[k] == prev[k];
      }
    }
    forall id | id in Ids(r) ensures id in Ids(prev) + Ids(data) {
      var i :| 0 <= i < |r| && r[i].id == id;
      if i >= |prev| {
        assert r[i] in data;
        var k :| 0 <= k < |data| && data[k] == r[i];
      }
    }
    forall i | 0 <= i < |prev| ensures prev[i].id in Ids(r) {
      assert r[i] == prev[i];
    }
  }

  /** The filtered page keeps the page's distinct ids distinct. */
  lemma {:induction false} FilterKeepsDistinct(ids: set<string>, data: seq<Post>)
    requires DistinctIds(data)
    ensures DistinctIds(Filter(NotShown(ids), data))
  {
    if data != [] {
      FilterKeepsDistinct(ids, data[1..]);
      var rest := Filter(NotShown(ids), data[1..]);
      forall j | 0 <= j < |rest| ensures rest[j].id != data[0].id {
        var k :| 0 <= k < |data[1..]| && data[1..][k] == rest[j];
        assert data[k + 1] == rest[j];
      }
    }
  }

  /** When the shown list and the page each have distinct ids, so does the
      merged list: a post is never shown twice. */
  lemma MergeKeepsIdsDistinct(prev: seq<Post>, data: seq<Post>)
    requires DistinctIds(prev) && DistinctIds(data)
    ensures DistinctIds(MergePage(prev, data))
  {
    var unseen := Filter(NotShown(Ids(prev)), data);
    FilterKeepsDistinct(Ids(prev), data);
    var r := MergePage(prev, data);
    forall i, j | 0 <= i < j < |r| ensures r[i].id != r[j].id {
      if j >= |prev| && i < |prev| {
        assert r[i].id in Ids(prev);
      } else if i >= |prev| {
        assert r[i] == unseen[i - |prev|] && r[j] == unseen[j - |prev|];
      }
    }
  }

  /** The like button's update: the posts with that id get the reported
      state and a count moved by one in its direction; all others are kept. */
  function ApplyLike(posts: seq<Post>, postId: string, isLiked: bool): (r: seq<Post>)
    ensures |r| == |posts|
    ensures forall i :: 0 <= i < |r| && posts[i].id != postId ==> r[i] == posts[i]
    ensures forall i :: 0 <= i < |r| && posts[i].id == postId ==>
      r[i] == posts[i].(isLiked := isLiked, likesCount := posts[i].likesCount + if isLiked then 1 else -1)
  {
    seq(|posts|, i requires 0 <= i < |posts| =>
      if posts[i].id == postId
      then posts[i].(isLiked := isLiked, likesCount := if isLiked then posts[i].likesCount + 1 else posts[i].likesCount - 1)
      else posts[i])
  }

  /** A like followed by an unlike of a post that was not liked restores
      the list. */
  lemma LikeThenUnlikeRestores(posts: seq<Post>, postId: string)
    requires forall i :: 0 <= i < |posts| && posts[i].id == postId ==> !posts[i].isLiked
    ensures ApplyLike(ApplyLike(posts, postId, true), postId, false) == posts
  {
    var r := ApplyLike(ApplyLike(posts, postId, true), postId, false);
    forall i | 0 <= i < |posts| ensures r[i] == posts[i] {
    }
  }

  /** The save button's update: only the posts with that id change, and only
      their saved flag. */
  function ApplySave(posts: seq<Post>, postId: string, isSaved: bool): (r: seq<Post>)
    ensures |r| == |posts|
    ensures forall i :: 0 <= i < |r| ==> r[i] == if posts[i].id == postId then posts[i].(isSaved := isSaved) else posts[i]
  {
    seq(|posts|, i requires 0 <= i < |posts| => if posts[i].id == postId then posts[i].(isSaved := isSaved) else posts[i])
  }

  /** Saving the same state twice is saving it once. */
  lemma ApplySaveIdempotent(posts: seq<Post>, postId: string, isSaved: bool)
    ensures ApplySave(ApplySave(posts, postId, isSaved), postId, isSaved) == ApplySave(posts, postId, isSaved)
  {
  }

  class FeedState {
    var posts: seq<Post>
    var loading: bool
    var hasMore: bool
    var page: nat
    var currentUser: Option<Profile>

    constructor (currentUser: Option<Profile>)
      ensures posts == [] && loading && hasMore && page == 0 && this.currentUser == currentUser
    {
      posts := [];
      loading := true;
      hasMore := true;
      page := 0;
      this.currentUser := currentUser;
    }

    /** `loadPosts`. Returns the (limit, offset) it asks `getFeedPosts` for,
        if it asks at all; `fetched` is what that call returns or throws. */
    method LoadPosts(fetched: Result<seq<Post>>) returns (request: Option<(int, int)>)
      modifies this`posts, this`hasMore, this`page, this`loading
      ensures request.None? <==> !old(hasMore)
      ensures request.None? ==> posts == old(posts) && hasMore == old(hasMore) && page == old(page) && loading == old(loading)
      ensures request.Some? ==> request.value == (PageSize, old(page) * PageSize) && !loading
      ensures request.Some? && fetched.Err? ==> posts == old(posts) && hasMore && page == old(page)
      ensures request.Some? && fetched.Ok? && fetched.value == [] ==> posts == old(posts) && !hasMore && page == old(page)
      ensures request.Some? && fetched.Ok? && fetched.value != [] ==>
        && posts == MergePage(old(posts), fetched.value)
        && (|fetched.value| < PageSize ==> !hasMore && page == old(page))
        && (|fetched.value| >= PageSize ==> hasMore && page == old(page) + 1)
    {
      if !hasMore {
        return None;
      }
      request := Some((PageSize, page * PageSize));
      if fetched.Ok? {
        var data := fetched.value;
        if |data| == 0 {
          hasMore := false;
        } else {
          posts := MergePage(posts, data);
          if |data| < PageSize {
            hasMore := false;
          } else {
            page := page + 1;
          }
        }
      }
      loading := false;
    }

    /** `handleLike`; `toggled` is what `toggleLike` returns or throws. */
    method HandleLike(postId: string, toggled: Result<bool>)
      modifies this`posts
      ensures posts == if currentUser.Some? && toggled.Ok? then ApplyLike(old(posts), postId, toggled.value) else old(posts)
    {
      if currentUser.None? {
        return;
      }
      if toggled.Ok? {
        posts := ApplyLike(posts, postId, toggled.value);
      }
    }

    /** `handleSave`; `toggled` is what `toggleSave` returns or throws. */
    method HandleSave(postId: string, toggled: Result<bool>)
      modifies this`posts
      ensures posts == if currentUser.Some? && toggled.Ok? then ApplySave(old(posts), postId, toggled.value) else old(posts)
    {
      if currentUser.None? {
        return;
      }
      if toggled.Ok? {
        posts := ApplySave(posts, postId, toggled.value);
      }
    }
  }
}
