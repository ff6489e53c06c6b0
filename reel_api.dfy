/** The reel queries (entities/reel/api/index.ts): the annotation of fetched
    reel rows and the reel like flip. */
module ReelApi {
  import opened Common
  import opened Types
  import PostApi
  import Relation

  /** A fetched reel: its stored counters (`null` is `None`) and its embedded
      likes. */
  datatype ReelRow = ReelRow(reel: Reel, storedLikes: Option<int>, storedComments: Option<int>,
                             likes: Option<seq<PostApi.LikeRow>>)

  /** `n || 0` on a `number | null` counter. */
  function CounterOrZero(n: Option<int>): (r: int)
    ensures n.Some? ==> r == n.value
    ensures n.None? ==> r == 0
  {
    if n.Some? then n.value else 0
  }

  /** One row of `getReelsFeed`: the like mark comes from the embedded likes,
      the counters from the stored columns, everything else as fetched. */
  function Annotate(row: ReelRow, user: Option<string>): (r: Reel)
    ensures r.isLiked <==> PostApi.LikedBy(row.likes, user)
    ensures r.likesCount == CounterOrZero(row.storedLikes) && r.commentsCount == CounterOrZero(row.storedComments)
    ensures r.(isLiked := row.reel.isLiked, likesCount := row.reel.likesCount, commentsCount := row.reel.commentsCount) == row.reel
  {
    row.reel.(isLiked := PostApi.LikedBy(row.likes, user),
              likesCount := CounterOrZero(row.storedLikes),
              commentsCount := CounterOrZero(row.storedComments))
  }

  /** `getReelsFeed` after the query: an error or null data gives []; otherwise
      one annotated reel per row, in row order, as `getFeedPosts` does for
      posts. */
  function AnnotateReels(reply: Reply<seq<ReelRow>>, user: Option<string>): (r: seq<Reel>)
    ensures !reply.Data? ==> r == []
    ensures reply.Data? ==> |r| == |reply.value| && forall i :: 0 <= i < |r| ==> r[i] == Annotate(reply.value[i], user)
  {
    if reply.Data? then seq(|reply.value|, i requires 0 <= i < |reply.value| => Annotate(reply.value[i], user)) else []
  }

  /** The like count shown is the stored counter: it does not follow the
      embedded likes, so a reel may show liked with a count of 0. */
  lemma CountIsNotRecomputed(row: ReelRow, user: string)
    requires row.storedLikes.None? && row.likes == Some([PostApi.LikeRow(user)])
    ensures Annotate(row, Some(user)).isLiked && Annotate(row, Some(user)).likesCount == 0
  {
    assert row.likes.value[0].userId == user;
  }

  /** The reel `likes` table. */
  class ReelLikes {
    const likes: Relation.PairTable

    constructor (likes: Relation.PairTable)
      ensures this.likes == likes
    {
      this.likes := likes;
    }

    /** `toggleReelLike`. */
    method ToggleReelLike(reelId: string, userId: string, lookupOk: bool, writeOk: bool) returns (isLiked: bool)
      modifies likes
      ensures (likes.rows, isLiked) == Relation.Toggled(old(likes.rows), (reelId, userId), lookupOk, writeOk)
    {
      isLiked := likes.Toggle(reelId, userId, lookupOk, writeOk);
    }
  }
}
