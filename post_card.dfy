/** One post in the feed (entities/post/ui/post-card.tsx): the carousel
    position, the options menu offered to the owner and to everyone else,
    the merge of an edit into the shown post, and the card's removal after
    a delete. The confirmation dialog's answer and the delete call's outcome
    are parameters. */
module PostCard {
  import opened Common
  import opened Types

  /** The card shows arrows and dots only for a carousel post with more than
      one image. */
  predicate IsCarousel(p: Post) {
    p.mediaType == CarouselPost && |p.mediaUrls| > 1
  }

  /** The left arrow is shown. */
  predicate HasPrev(p: Post, index: int) {
    IsCarousel(p) && index > 0
  }

  /** The right arrow is shown. */
  predicate HasNext(p: Post, index: int) {
    IsCarousel(p) && index < |p.mediaUrls| - 1
  }

  /** The image position is one the post has (or 0 when it has none). */
  predicate InRange(p: Post, index: int) {
    0 <= index && (index == 0 || index < |p.mediaUrls|)
  }

  /** A click on an arrow: the position moves by one in its direction when
      that arrow is shown, and stays otherwise. */
  function Step(p: Post, index: int, forward: bool): (r: int)
    ensures forward && HasNext(p, index) ==> r == index + 1
    ensures !forward && HasPrev(p, index) ==> r == index - 1
    ensures !(forward && HasNext(p, index)) && !(!forward && HasPrev(p, index)) ==> r == index
  {
    if forward && HasNext(p, index) then index + 1
    else if !forward && HasPrev(p, index) then index - 1
    else index
  }

  /** Starting from a position in range, the arrows never leave it. */
  lemma StepStaysInRange(p: Post, index: int, forward: bool)
    requires InRange(p, index)
    ensures InRange(p, Step(p, index, forward))
  {
  }

  /** Going forward and then back returns to the same image. */
  lemma NextThenPrevReturns(p: Post, index: int)
    requires InRange(p, index) && HasNext(p, index)
    ensures Step(p, Step(p, index, true), false) == index
  {
  }

  datatype MenuItem = Delete | Edit | Report | CopyLink | Cancel

  /** The options menu: delete and edit for the post's author, report for
      everyone else (including a signed-out visitor); copy-link and cancel
      for all. */
  function MenuItems(currentUserId: Option<string>, p: Post): (r: seq<MenuItem>)
    ensures Delete in r <==> currentUserId == Some(p.userId)
    ensures Edit in r <==> currentUserId == Some(p.userId)
    ensures Report in r <==> currentUserId != Some(p.userId)
    ensures CopyLink in r && Cancel in r
  {
    (if currentUserId == Some(p.userId) then [Delete, Edit] else [Report]) + [CopyLink, Cancel]
  }

  /** The fields of an updated post row; a field the row does not carry is
      `None`. */
  datatype PostPatch = PostPatch(
    caption: Option<Option<string>>,
    location: Option<Option<string>>,
    mediaUrls: Option<seq<string>>,
    mediaType: Option<PostMedia>,
    likesCount: Option<int>,
    commentsCount: Option<int>,
    isLiked: Option<bool>,
    isSaved: Option<bool>)

  /** One field of a spread: the update's value when it carries the field,
      otherwise the current one. */
  function Pick<T>(update: Option<T>, current: T): T {
    if update.Some? then update.value else current
  }

  /** `{ ...postData, ...updated }`: each field the update carries replaces
      the shown one; the rest are kept. */
  function Merge(p: Post, u: PostPatch): (r: Post)
    ensures r.id == p.id && r.userId == p.userId && r.user == p.user
    ensures u.caption.Some? ==> r.caption == u.caption.value
    ensures u.location.Some? ==> r.location == u.location.value
    ensures u.mediaUrls.Some? ==> r.mediaUrls == u.mediaUrls.value
    ensures u.mediaType.Some? ==> r.mediaType == u.mediaType.value
    ensures u.likesCount.Some? ==> r.likesCount == u.likesCount.value
    ensures u.commentsCount.Some? ==> r.commentsCount == u.commentsCount.value
    ensures u.isLiked.Some? ==> r.isLiked == u.isLiked.value
    ensures u.isSaved.Some? ==> r.isSaved == u.isSaved.value
    ensures u.caption.None? ==> r.caption == p.caption
    ensures u.location.None? ==> r.location == p.location
    ensures u.mediaUrls.None? ==> r.mediaUrls == p.mediaUrls
    ensures u.mediaType.None? ==> r.mediaType == p.mediaType
    ensures u.likesCount.None? ==> r.likesCount == p.likesCount
    ensures u.commentsCount.None? ==> r.commentsCount == p.commentsCount
    ensures u.isLiked.None? ==> r.isLiked == p.isLiked
    ensures u.isSaved.None? ==> r.isSaved == p.isSaved
  {
    p.(caption := Pick(u.caption, p.caption),
       mediaUrls := Pick(u.mediaUrls, p.mediaUrls),
       mediaType := Pick(u.mediaType, p.mediaType),
       location := Pick(u.location, p.location),
       likesCount := Pick(u.likesCount, p.likesCount),
       commentsCount := Pick(u.commentsCount, p.commentsCount),
       isLiked := Pick(u.isLiked, p.isLiked),
       isSaved := Pick(u.isSaved, p.isSaved))
  }

  /** Merging the same update twice is merging it once. */
  lemma MergeIdempotent(p: Post, u: PostPatch)
    ensures Merge(Merge(p, u), u) == Merge(p, u)
  {
  }

  /** An update carrying only the caption and the location changes nothing
      else, so the carousel position stays valid. */
  lemma CaptionEditKeepsMedia(p: Post, caption: Option<string>, location: Option<string>, index: int)
    requires InRange(p, index)
    ensures var r := Merge(p, PostPatch(Some(caption), Some(location), None, None, None, None, None, None));
      r == p.(caption := caption, location := location) && InRange(r, index)
  {
  }

  class Card {
    const post: Post
    const currentUserId: Option<string>
    var postData: Post
    var imageIndex: int
    var showMenu: bool
    var isEditOpen: bool
    var isDeleted: bool

    constructor (post: Post, currentUserId: Option<string>)
      ensures this.post == post && this.currentUserId == currentUserId && postData == post
      ensures imageIndex == 0 && !showMenu && !isEditOpen && !isDeleted
      ensures InRange(postData, imageIndex)
    {
      this.post := post;
      this.currentUserId := currentUserId;
      postData := post;
      imageIndex := 0;
      showMenu := false;
      isEditOpen := false;
      isDeleted := false;
    }

    /** The menu the card offers; it is decided on the post the card was
        given. */
    function Menu(): (r: seq<MenuItem>)
      reads this
      ensures Delete in r <==> currentUserId == Some(post.userId)
    {
      MenuItems(currentUserId, post)
    }

    /** The left arrow's click. */
    method Prev()
      requires HasPrev(postData, imageIndex)
      modifies this`imageIndex
      ensures imageIndex == old(imageIndex) - 1
      ensures old(InRange(postData, imageIndex)) ==> InRange(postData, imageIndex)
    {
      imageIndex := imageIndex - 1;
    }

    /** The right arrow's click. */
    method Next()
      requires HasNext(postData, imageIndex)
      modifies this`imageIndex
      ensures imageIndex == old(imageIndex) + 1
      ensures old(InRange(postData, imageIndex)) ==> InRange(postData, imageIndex)
    {
      imageIndex := imageIndex + 1;
    }

    /** The edit item of the owner's menu. */
    method OpenEdit()
      requires Edit in Menu()
      modifies this`isEditOpen, this`showMenu
      ensures isEditOpen && !showMenu
    {
      isEditOpen := true;
      showMenu := false;
    }

    /** The edit dialog's `onUpdate`. */
    method OnUpdate(updated: PostPatch)
      modifies this`postData
      ensures postData == Merge(old(postData), updated)
    {
      postData := Merge(postData, updated);
    }

    /** `handleDelete`: nothing without confirmation; the card disappears
        only when `deletePost` succeeds. */
    method HandleDelete(confirmed: bool, deleted: Result<()>)
      requires Delete in Menu()
      modifies this`isDeleted
      ensures isDeleted == (old(isDeleted) || (confirmed && deleted.Ok?))
    {
      if !confirmed {
        return;
      }
      if deleted.Ok? {
        isDeleted := true;
      }
    }
  }
}
