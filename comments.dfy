/** The comments dialog (features/comments/ui/comments-modal.tsx): loading a
    post's comments, and submitting a new one with the notification to the
    post's owner. */
module Comments {
  import opened Common
  import opened Types

  /** The profile fields the dialog attaches to a comment. */
  datatype CommentAuthor = CommentAuthor(id: string, username: string, fullName: Option<string>, avatarUrl: Option<string>)

  datatype Comment = Comment(id: string, postId: string, userId: string, content: string, user: Option<CommentAuthor>)

  /** The row the dialog asks to insert. */
  datatype NewComment = NewComment(postId: string, userId: string, content: string)

  function AuthorOf(p: Profile): (a: CommentAuthor)
    ensures a.id == p.id && a.username == p.username && a.fullName == p.fullName && a.avatarUrl == p.avatarUrl
  {
    CommentAuthor(p.id, p.username, p.fullName, p.avatarUrl)
  }

  /** `loadComments`: a query error is thrown and caught, keeping the list;
      otherwise the rows (already in ascending `created_at`) or []. */
  function LoadedComments(current: seq<Comment>, reply: Reply<seq<Comment>>): (r: seq<Comment>)
    ensures reply.Failure? ==> r == current
    ensures reply.Data? ==> r == reply.value
    ensures reply.NullData? ==> r == []
  {
    match reply
    case Failure(_) => current
    case Data(rows) => rows
    case NullData => []
  }

  /** The notification after a comment: sent to the post's owner when the
      owner lookup succeeds and the owner is not the commenter. */
  function CommentNotification(owner: Reply<string>, commenter: string, postId: string, commentId: string)
    : (r: Option<NewNotification>)
    ensures r.Some? <==> owner.Data? && owner.value != commenter
    ensures r.Some? ==> r.value == NewNotification(owner.value, Some(commenter), "comment", Some(postId), None, Some(commentId))
  {
    if owner.Data? && owner.value != commenter
    then Some(NewNotification(owner.value, Some(commenter), "comment", Some(postId), None, Some(commentId)))
    else None
  }

  /** Nobody is notified of their own comment, and every notification goes
      to the post's owner, who is someone other than its actor. */
  lemma NoSelfNotification(owner: Reply<string>, commenter: string, postId: string, commentId: string)
    ensures var r := CommentNotification(owner, commenter, postId, commentId);
      r.Some? ==>
        && owner.Data? && r.value.userId == owner.value
        && r.value.actorId == Some(commenter) && r.value.userId != commenter
    ensures CommentNotification(Data(commenter), commenter, postId, commentId).None?
  {
  }

  class Dialog {
    const postId: string
    var currentUser: Option<Profile>
    var comments: seq<Comment>
    var newComment: string
    var loading: bool

    constructor (postId: string, currentUser: Option<Profile>)
      ensures this.postId == postId && this.currentUser == currentUser
      ensures comments == [] && newComment == "" && !loading
    {
      this.postId := postId;
      this.currentUser := currentUser;
      comments := [];
      newComment := "";
      loading := false;
    }

    method LoadComments(reply: Reply<seq<Comment>>)
      modifies this`comments
      ensures comments == LoadedComments(old(comments), reply)
    {
      comments := LoadedComments(comments, reply);
    }

    /** `handleSubmit`. `inserted` is the insert's reply and `owner` the post
        owner lookup's reply. Returns the row it asks to insert and the
        notification it sends, if any. */
    method HandleSubmit(inserted: Reply<Comment>, owner: Reply<string>)
      returns (request: Option<NewComment>, notification: Option<NewNotification>)
      modifies this`comments, this`newComment, this`loading
      ensures request.None? <==> currentUser.None? || Trim(old(newComment)) == ""
      ensures request.None? ==>
        notification.None? && comments == old(comments) && newComment == old(newComment) && loading == old(loading)
      ensures request.Some? ==> request.value == NewComment(postId, currentUser.value.id, Trim(old(newComment))) && !loading
      ensures request.Some? && inserted.Data? ==>
        && comments == old(comments) + [inserted.value.(user := Some(AuthorOf(currentUser.value)))]
        && newComment == ""
        && notification == CommentNotification(owner, currentUser.value.id, postId, inserted.value.id)
      ensures request.Some? && !inserted.Data? ==>
        comments == old(comments) && newComment == old(newComment) && notification.None?
    {
      var text := Trim(newComment);
      notification := None;
      if currentUser.None? || text == "" {
        return None, None;
      }
      loading := true;
      var user := currentUser.value;
      request := Some(NewComment(postId, user.id, text));
      if inserted.Data? {
        var c := inserted.value;
        comments := comments + [c.(user := Some(AuthorOf(user)))];
        newComment := "";
        notification := CommentNotification(owner, user.id, postId, c.id);
      }
      loading := false;
    }
  }
}
