/** The follow queries (entities/follow/api/index.ts): the follower and
    following lists, the is-following check and the follow flip with its
    notification. The `follows` table is a multiset of (follower, following)
    pairs and the notifications table a log of written rows. */
module FollowApi {
  import opened Common
  import opened Types
  import Relation
  import NotificationApi

  /** `.filter(Boolean)` over joined profiles: the present ones, in order. */
  function Present(joined: seq<Option<Profile>>): (r: seq<Profile>)
    ensures |r| <= |joined|
    ensures forall p :: p in r <==> Some(p) in joined
  {
    if joined == [] then []
    else
      assert forall p :: Some(p) in joined <==> Some(p) == joined[0] || Some(p) in joined[1..] by {
        assert joined == [joined[0]] + joined[1..];
      }
      (if joined[0].Some? then [joined[0].value] else []) + Present(joined[1..])
  }

  /** `getFollowersByUserId` / `getFollowingByUserId`: [] on an error or null
      data, otherwise the joined profiles without the missing ones. */
  function ProfileList(reply: Reply<seq<Option<Profile>>>): (r: seq<Profile>)
    ensures !reply.Data? ==> r == []
    ensures reply.Data? ==> r == Present(reply.value)
  {
    if reply.Data? then Present(reply.value) else []
  }

  /** Nothing is dropped when every row has its profile. */
  lemma {:induction false} PresentKeepsFullList(joined: seq<Option<Profile>>)
    requires forall i :: 0 <= i < |joined| ==> joined[i].Some?
    ensures |Present(joined)| == |joined|
    ensures forall i :: 0 <= i < |joined| ==> Present(joined)[i] == joined[i].value
  {
    if joined != [] {
      PresentKeepsFullList(joined[1..]);
    }
  }

  /** One row keeps its profile when it has one and nothing otherwise. */
  lemma PresentOne(row: Option<Profile>)
    ensures Present([row]) == if row.Some? then [row.value] else []
  {
    assert [row][1..] == [];
  }

  /** The filter works row by row, keeping the order: the profiles of a list
      of rows are those of its first part followed by those of the rest. */
  lemma {:induction false} PresentAppend(a: seq<Option<Profile>>, b: seq<Option<Profile>>)
    ensures Present(a + b) == Present(a) + Present(b)
  {
    if a == [] {
      assert a + b == b;
    } else {
      assert (a + b)[0] == a[0];
      assert (a + b)[1..] == a[1..] + b;
      PresentAppend(a[1..], b);
    }
  }

  /** `checkIsFollowing`: false without a signed-in user or on a query error;
      otherwise whether the lookup finds the row. */
  function CheckIsFollowing(follows: multiset<Relation.Pair>, user: Option<string>, target: string,
                            queryFails: bool): (r: bool)
    ensures r <==> user.Some? && !queryFails && follows[(user.value, target)] == 1
  {
    user.Some? && !queryFails && Relation.Found(follows, (user.value, target), true)
  }

  /** The notification a new follow sends to the followed user. */
  function FollowNotification(user: string, target: string): (n: NewNotification)
    ensures n.userId == target && n.actorId == Some(user) && n.kind == "follow"
    ensures n.postId.None? && n.reelId.None? && n.commentId.None?
  {
    NewNotification(target, Some(user), "follow", None, None, None)
  }

  class Follows {
    var follows: multiset<Relation.Pair>
    var notifications: seq<NewNotification>

    constructor (follows: multiset<Relation.Pair>, notifications: seq<NewNotification>)
      ensures this.follows == follows && this.notifications == notifications
    {
      this.follows := follows;
      this.notifications := notifications;
    }

    /** `toggleFollow`. `user` is the session user; `lookupOk` says whether
        the lookup query succeeded (its error is only logged, and its null
        data reads as "not following"); `writeError` is the delete's or the
        insert's error; `notifyOk` says whether the notification insert went
        through. */
    method ToggleFollow(user: Option<string>, target: string, lookupOk: bool, writeError: Option<string>, notifyOk: bool)
      returns (r: Result<bool>)
      modifies this
      ensures user.None? ==> r == Err("Not authenticated") && follows == old(follows) && notifications == old(notifications)
      ensures user.Some? && writeError.Some? ==>
        r == Err(writeError.value) && follows == old(follows) && notifications == old(notifications)
      ensures user.Some? && writeError.None? && Relation.Found(old(follows), (user.value, target), lookupOk) ==>
        r == Ok(false) && follows == old(follows) - multiset{(user.value, target)} && notifications == old(notifications)
      ensures user.Some? && writeError.None? && !Relation.Found(old(follows), (user.value, target), lookupOk) ==>
        && r == Ok(true)
        && follows == old(follows) + multiset{(user.value, target)}
        && notifications == NotificationApi.CreateNotification(old(notifications), FollowNotification(user.value, target), notifyOk)
    {
      if user.None? {
        return Err("Not authenticated");
      }
      var pair := (user.value, target);
      if Relation.Found(follows, pair, lookupOk) {
        if writeError.Some? {
          return Err(writeError.value);
        }
        follows := follows - multiset{pair};
        return Ok(false);
      }
      if writeError.Some? {
        return Err(writeError.value);
      }
      follows := follows + multiset{pair};
      notifications := NotificationApi.CreateNotification(notifications, FollowNotification(user.value, target), notifyOk);
      return Ok(true);
    }
  }
}
