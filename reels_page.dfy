/** The reels page (app/reels/page.tsx): the loaded reels, the like button's
    update of one reel, and the mute switch. */
module ReelsPage {
  import opened Common
  import opened Types

  /** The like button's update: reels with that id get the reported state and
      a count moved by one in its direction; all others are kept. */
  function ApplyReelLike(reels: seq<Reel>, reelId: string, isLiked: bool): (r: seq<Reel>)
    ensures |r| == |reels|
    ensures forall i :: 0 <= i < |r| && reels[i].id != reelId ==> r[i] == reels[i]
    ensures forall i :: 0 <= i < |r| && reels[i].id == reelId ==>
      r[i].isLiked == isLiked && r[i].likesCount - reels[i].likesCount == (if isLiked then 1 else -1)
      && r[i].(isLiked := reels[i].isLiked, likesCount := reels[i].likesCount) == reels[i]
  {
    seq(|reels|, i requires 0 <= i < |reels| =>
      if reels[i].id == reelId
      then reels[i].(isLiked := isLiked, likesCount := reels[i].likesCount + if isLiked then 1 else -1)
      else reels[i])
  }

  /** Liking and then unliking a reel leaves every like count where it
      was. */
  lemma LikeThenUnlikeRestoresCounts(reels: seq<Reel>, reelId: string)
    ensures var r := ApplyReelLike(ApplyReelLike(reels, reelId, true), reelId, false);
      forall i :: 0 <= i < |r| ==> r[i].likesCount == reels[i].likesCount
  {
  }

  /** What the like button leads to. */
  datatype LikeOutcome = RedirectToLogin | Requested(reelId: string, userId: string)

  class Reels {
    var reels: seq<Reel>
    var loading: bool
    var muted: bool
    var currentUser: Option<Profile>

    constructor (currentUser: Option<Profile>)
      ensures reels == [] && loading && muted && this.currentUser == currentUser
    {
      reels := [];
      loading := true;
      muted := true;
      this.currentUser := currentUser;
    }

    /** `loadReels`: the fetched reels replace the list; a throw keeps it. */
    method LoadReels(fetched: Result<seq<Reel>>)
      modifies this`reels, this`loading
      ensures !loading
      ensures reels == if fetched.Ok? then fetched.value else old(reels)
    {
      if fetched.Ok? {
        reels := fetched.value;
      }
      loading := false;
    }

    /** `handleLike`; `toggled` is what `toggleReelLike` returns or throws. */
    method HandleLike(reelId: string, toggled: Result<bool>) returns (outcome: LikeOutcome)
      modifies this`reels
      ensures outcome == RedirectToLogin <==> currentUser.None?
      ensures outcome.Requested? ==> outcome == Requested(reelId, currentUser.value.id)
      ensures reels == if currentUser.Some? && toggled.Ok? then ApplyReelLike(old(reels), reelId, toggled.value) else old(reels)
    {
      if currentUser.None? {
        return RedirectToLogin;
      }
      outcome := Requested(reelId, currentUser.value.id);
      if toggled.Ok? {
        reels := ApplyReelLike(reels, reelId, toggled.value);
      }
    }

    method ToggleMute()
      modifies this`muted
      ensures muted == !old(muted)
    {
      muted := !muted;
    }
  }
}
