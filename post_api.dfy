/** The post queries (entities/post/api/index.ts): the annotation of fetched
    post rows with the signed-in user's like and the like and comment
    counts, the page range the feed asks for, the error behaviour of
    `createPost` / `deletePost`, and the like and save flips. */
module PostApi {
  import opened Common
  import opened Types
  import Relation

  /** A `likes(user_id)` embedded row. */
  datatype LikeRow = LikeRow(userId: string)

  /** A `comments(count)` embedded row. */
  datatype CountRow = CountRow(count: int)

  /** A fetched post with its embedded likes and comment count; an absent
      embed is `None`. */
  datatype PostRow = PostRow(post: Post, likes: Option<seq<LikeRow>>, comments: Option<seq<CountRow>>)

  /** `likes?.some(like => like.user_id === user?.id) || false`. */
  predicate LikedBy(likes: Option<seq<LikeRow>>, user: Option<string>) {
    user.Some? && likes.Some? && exists i :: 0 <= i < |likes.value| && likes.value[i].userId == user.value
  }

  /** `likes?.length || 0`. */
  function LikeCount(likes: Option<seq<LikeRow>>): (r: nat)
    ensures likes.None? ==> r == 0
    ensures likes.Some? ==> r == |likes.value|
  {
    if likes.Some? then |likes.value| else 0
  }

  /** `comments?.[0]?.count || 0`. */
  function CommentCount(comments: Option<seq<CountRow>>): (r: int)
    ensures comments.Some? && comments.value != [] ==> r == comments.value[0].count
    ensures comments.None? || comments.value == [] ==> r == 0
  {
    if comments.Some? && comments.value != [] then comments.value[0].count else 0
  }

  /** One row of `getFeedPosts` / `getUserPosts`: the post with the three
      computed fields replaced and every other field as fetched. */
  function Annotate(row: PostRow, user: Option<string>): (p: Post)
    ensures p.isLiked <==> LikedBy(row.likes, user)
    ensures p.likesCount == LikeCount(row.likes) && p.commentsCount == CommentCount(row.comments)
    ensures p.(isLiked := row.post.isLiked, likesCount := row.post.likesCount, commentsCount := row.post.commentsCount) == row.post
  {
    row.post.(isLiked := LikedBy(row.likes, user), likesCount := LikeCount(row.likes), commentsCount := CommentCount(row.comments))
  }

  /** `getFeedPosts` / `getUserPosts` after the query: null data (the error
      is not read) gives []; otherwise one annotated post per row, in row
      order. */
  function AnnotatePosts(reply: Reply<seq<PostRow>>, user: Option<string>): (r: seq<Post>)
    ensures !reply.Data? ==> r == []
    ensures reply.Data? ==> |r| == |reply.value| && forall i :: 0 <= i < |r| ==> r[i] == Annotate(reply.value[i], user)
  {
    if reply.Data? then seq(|reply.value|, i requires 0 <= i < |reply.value| => Annotate(reply.value[i], user)) else []
  }

  /** Without a signed-in user no post is marked liked. */
  lemma SignedOutLikesNothing(reply: Reply<seq<PostRow>>)
    ensures forall i :: 0 <= i < |AnnotatePosts(reply, None)| ==> !AnnotatePosts(reply, None)[i].isLiked
  {
  }

  /** The user ids of the likes, in order. */
  function LikerIds(likes: seq<LikeRow>): (r: seq<string>)
    ensures |r| == |likes| && forall i :: 0 <= i < |r| ==> r[i] == likes[i].userId
  {
    seq(|likes|, i requires 0 <= i < |likes| => likes[i].userId)
  }

  /** A post carries the like mark exactly when the user is among its
      likers, and it is then counted among them. */
  lemma LikedPostHasALike(row: PostRow, user: string)
    ensures Annotate(row, Some(user)).isLiked ==> Annotate(row, Some(user)).likesCount >= 1
    ensures Annotate(row, Some(user)).isLiked <==> row.likes.Some? && user in LikerIds(row.likes.value)
  {
    if row.likes.Some? {
      var ids := LikerIds(row.likes.value);
      if user in ids {
        var i :| 0 <= i < |ids| && ids[i] == user;
        assert row.likes.value[i].userId == user;
      }
    }
  }

  /** `.range(offset, offset + limit - 1)`: inclusive bounds. */
  function PageRange(limit: int, offset: int): (r: (int, int))
    ensures r.1 - r.0 + 1 == limit && r.0 == offset
  {
    (offset, offset + limit - 1)
  }

  /** The rows a request covers, by position in the query's order. */
  predicate Covers(range: (int, int), k: int) {
    range.0 <= k <= range.1
  }

  /** The feed asks for page `page` at offset `page * limit`. Every row
      position is asked for by exactly one page, the one numbered
      `k / limit`: the pages neither overlap nor leave a gap. */
  lemma RowOnOnePage(limit: int, k: nat, page: nat)
    requires limit > 0
    ensures Covers(PageRange(limit, page * limit), k) <==> page == k / limit
  {
    var q := k / limit;
    QuotientBounds(k, limit);
    if page < q {
      MulMonotone(page + 1, q, limit);
    } else if page > q {
      MulMonotone(q + 1, page, limit);
    }
  }

  /** `k / limit` pages of `limit` rows end at or before row `k`, and one
      more page passes it. */
  lemma QuotientBounds(k: nat, limit: int)
    requires limit > 0
    ensures (k / limit) * limit <= k < (k / limit) * limit + limit
  {
    assert k == (k / limit) * limit + k % limit;
  }

  /** `a` pages end no later than `b` pages do; the `+ 1` forms are spelled
      out for the page after. */
  lemma MulMonotone(a: nat, b: nat, c: int)
    requires a <= b && c > 0
    ensures a * c <= b * c
    ensures a > 0 ==> a * c == (a - 1) * c + c
  {
  }

  /** `createPost`: the inserted post, or the insert error thrown. */
  function CreatePost(reply: Reply<Post>): (r: Result<Post>)
    ensures reply.Data? <==> r.Ok?
    ensures reply.Data? ==> r.value == reply.value
    ensures reply.Failure? ==> r == Err(reply.message)
  {
    match reply
    case Data(p) => Ok(p)
    case Failure(e) => Err(e)
    // `.single()` reports a missing row as an error.
    case NullData => Err("no row returned")
  }

  /** `deletePost`: the delete error is thrown, otherwise nothing happens.
      `deleteStory` and `deleteFile` repeat this shape. */
  function DeletePost(deleteError: Option<string>): (r: Result<()>)
    ensures r.Ok? <==> deleteError.None?
    ensures deleteError.Some? ==> r == Err(deleteError.value)
  {
    if deleteError.Some? then Err(deleteError.value) else Ok(())
  }

  /** The `likes` (by post) and `saved_posts` tables. */
  class PostRelations {
    const likes: Relation.PairTable
    const saved: Relation.PairTable

    constructor (likes: Relation.PairTable, saved: Relation.PairTable)
      ensures this.likes == likes && this.saved == saved
    {
      this.likes := likes;
      this.saved := saved;
    }

    /** `toggleLike`. */
    method ToggleLike(postId: string, userId: string, lookupOk: bool, writeOk: bool) returns (isLiked: bool)
      requires likes != saved
      modifies likes
      ensures (likes.rows, isLiked) == Relation.Toggled(old(likes.rows), (postId, userId), lookupOk, writeOk)
      ensures saved.rows == old(saved.rows)
    {
      isLiked := likes.Toggle(postId, userId, lookupOk, writeOk);
    }

    /** `toggleSave`. */
    method ToggleSave(postId: string, userId: string, lookupOk: bool, writeOk: bool) returns (isSaved: bool)
      requires likes != saved
      modifies saved
      ensures (saved.rows, isSaved) == Relation.Toggled(old(saved.rows), (postId, userId), lookupOk, writeOk)
      ensures likes.rows == old(likes.rows)
    {
      isSaved := saved.Toggle(postId, userId, lookupOk, writeOk);
    }
  }
}
