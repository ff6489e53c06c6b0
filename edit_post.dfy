/** The post editor (features/create-post/ui/edit-post-modal.tsx): caption
    and location start from the post each time the dialog opens, and the
    submit sends exactly those two fields. `updatePost` is not part of this
    model: the row it returns, or its error, is a parameter. */
module EditPost {
  import opened Common
  import opened Types
  import PostCard

  /** The update payload `{ caption, location }`. */
  datatype Payload = Payload(caption: string, location: string)

  /** A form field filled from a nullable column: null and "" give "". */
  function FieldFrom(column: Option<string>): (r: string)
    ensures Truthy(column) ==> r == column.value
    ensures !Truthy(column) ==> r == ""
    ensures r == "" || column == Some(r)
  {
    OrElse(column, "")
  }

  /** The patch the card merges when the row `updatePost` returns carries
      only the payload's two fields: the caption and the location are set,
      every other field is left as the card had it. */
  function PayloadPatch(payload: Payload): (u: PostCard.PostPatch)
    ensures u.caption == Some(Some(payload.caption)) && u.location == Some(Some(payload.location))
    ensures u.mediaUrls.None? && u.mediaType.None? && u.likesCount.None? && u.commentsCount.None?
    ensures u.isLiked.None? && u.isSaved.None?
  {
    PostCard.PostPatch(Some(Some(payload.caption)), Some(Some(payload.location)), None, None, None, None, None, None)
  }

  /** When the returned row carries only the caption and the location,
      reopening the editor on the post the card shows after the update fills
      in what was sent, and nothing but those two fields changes. */
  lemma ReopenShowsSavedFields(p: Post, payload: Payload)
    ensures var shown := PostCard.Merge(p, PayloadPatch(payload));
      FieldFrom(shown.caption) == payload.caption && FieldFrom(shown.location) == payload.location
    ensures PostCard.Merge(p, PayloadPatch(payload)).(caption := p.caption, location := p.location) == p
  {
  }

  /** Saving the fields as they were opened does not change them: opening
      an edited post gives the edited values back, and an empty field is
      saved as "" rather than null. */
  lemma SaveUnchangedKeepsFields(p: Post)
    ensures var shown := PostCard.Merge(p, PayloadPatch(Payload(FieldFrom(p.caption), FieldFrom(p.location))));
      FieldFrom(shown.caption) == FieldFrom(p.caption) && FieldFrom(shown.location) == FieldFrom(p.location)
  {
  }

  class Modal {
    const post: Post
    var isOpen: bool
    var caption: string
    var location: string
    var loading: bool
    /** How many times `onClose` has been called. */
    var closeCalls: nat

    constructor (post: Post, isOpen: bool)
      ensures this.post == post && this.isOpen == isOpen
      ensures caption == FieldFrom(post.caption) && location == FieldFrom(post.location)
      ensures !loading && closeCalls == 0
    {
      this.post := post;
      this.isOpen := isOpen;
      caption := FieldFrom(post.caption);
      location := FieldFrom(post.location);
      loading := false;
      closeCalls := 0;
    }

    /** The effect on opening (or on a new post while open). */
    method Sync()
      modifies this`caption, this`location
      ensures isOpen ==> caption == FieldFrom(post.caption) && location == FieldFrom(post.location)
      ensures !isOpen ==> caption == old(caption) && location == old(location)
    {
      if isOpen {
        caption := FieldFrom(post.caption);
        location := FieldFrom(post.location);
      }
    }

    /** `handleSubmit`. Returns the payload sent for the post and the row
        handed to `onUpdate`, which runs before `onClose`; a failure runs
        neither. */
    method HandleSubmit(updated: Result<PostCard.PostPatch>) returns (request: Payload, delivered: Option<PostCard.PostPatch>)
      modifies this`loading, this`closeCalls
      ensures request == Payload(caption, location)
      ensures delivered.Some? <==> updated.Ok?
      ensures delivered.Some? ==> delivered.value == updated.value && closeCalls == old(closeCalls) + 1
      ensures delivered.None? ==> closeCalls == old(closeCalls)
      ensures !loading
    {
      loading := true;
      request := Payload(caption, location);
      delivered := None;
      if updated.Ok? {
        delivered := Some(updated.value);
        closeCalls := closeCalls + 1;
      }
      loading := false;
    }
  }
}
