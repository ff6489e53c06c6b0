/** The new-post dialog (features/create-post/ui/create-post-modal.tsx): the
    chosen file and its preview, the row `createPost` is asked to insert,
    the error text, and the reset on close. The uploads' and the insert's
    outcomes and the preview URL are parameters. */
module CreatePost {
  import opened Common
  import opened Types

  const DefaultError := "Ошибка при создании поста"

  /** The row passed to `createPost`. */
  datatype NewPost = NewPost(userId: string, caption: string, location: string, mediaUrls: seq<string>, mediaType: PostMedia)

  /** `files.length > 1 ? 'carousel' : 'image'`. */
  function MediaTypeFor(fileCount: nat): (r: PostMedia)
    ensures r == CarouselPost <==> fileCount > 1
    ensures r != VideoPost
  {
    if fileCount > 1 then CarouselPost else ImagePost
  }

  /** The error shown for a thrown error: its message, or the default text
      when the message is empty. */
  function ErrorText(message: string): (r: string)
    ensures r != ""
    ensures message != "" ==> r == message
  {
    OrElse(Some(message), DefaultError)
  }

  /** What a submit with a signed-in user and chosen files leads to: the
      row it asks to insert, if the uploads succeed, and the error text it
      ends with ("" on success). `uploads` is what `uploadPostImages`
      returns or throws, `created` what `createPost` does. */
  function Submit(userId: string, caption: string, location: string, files: seq<File>,
                  uploads: Result<seq<string>>, created: Result<()>): (r: (Option<NewPost>, string))
    ensures r.0.Some? <==> uploads.Ok?
    ensures r.0.Some? ==> r.0.value == NewPost(userId, caption, location, uploads.value, MediaTypeFor(|files|))
    ensures r.1 == "" <==> uploads.Ok? && created.Ok?
    ensures uploads.Err? ==> r.1 == ErrorText(uploads.message)
    ensures uploads.Ok? && created.Err? ==> r.1 == ErrorText(created.message)
  {
    match uploads
    case Err(m) => (None, ErrorText(m))
    case Ok(urls) =>
      var row := NewPost(userId, caption, location, urls, MediaTypeFor(|files|));
      (Some(row), if created.Err? then ErrorText(created.message) else "")
  }

  class Modal {
    const currentUser: Option<Profile>
    var caption: string
    var location: string
    var files: seq<File>
    var imageUrl: string
    var loading: bool
    var error: string
    /** How many times `onClose` has been called. */
    var closeCalls: nat

    constructor (currentUser: Option<Profile>)
      ensures this.currentUser == currentUser
      ensures caption == "" && location == "" && files == [] && imageUrl == "" && !loading && error == ""
      ensures closeCalls == 0
    {
      this.currentUser := currentUser;
      caption, location, imageUrl, error := "", "", "", "";
      files := [];
      loading := false;
      closeCalls := 0;
    }

    /** `handleFileChange`: only the first chosen file is kept;
        `objectUrl` is the preview URL made for it. */
    method HandleFileChange(chosen: seq<File>, objectUrl: string)
      modifies this`files, this`imageUrl
      ensures chosen == [] ==> files == old(files) && imageUrl == old(imageUrl)
      ensures chosen != [] ==> files == [chosen[0]] && imageUrl == objectUrl
      ensures |old(files)| <= 1 ==> |files| <= 1
    {
      if chosen != [] {
        files := [chosen[0]];
        imageUrl := objectUrl;
      }
    }

    /** `handleClose`: every field is emptied, then `onClose` runs. */
    method HandleClose()
      modifies this`imageUrl, this`files, this`caption, this`location, this`error, this`closeCalls
      ensures imageUrl == "" && files == [] && caption == "" && location == "" && error == ""
      ensures closeCalls == old(closeCalls) + 1
    {
      imageUrl := "";
      files := [];
      caption := "";
      location := "";
      error := "";
      closeCalls := closeCalls + 1;
    }

    /** `handleSubmit`. Returns the row it asks `createPost` to insert, if
        any; without a user or a file nothing happens. */
    method HandleSubmit(uploads: Result<seq<string>>, created: Result<()>) returns (request: Option<NewPost>)
      modifies this
      ensures currentUser.None? || old(files) == [] ==> request.None? && unchanged(this)
      ensures currentUser.Some? && old(files) != [] ==>
        var (row, err) := Submit(currentUser.value.id, old(caption), old(location), old(files), uploads, created);
        && request == row
        && error == err
        && !loading
        && (err == "" ==> files == [] && caption == "" && location == "" && imageUrl == ""
                          && closeCalls == old(closeCalls) + 1)
        && (err != "" ==> files == old(files) && caption == old(caption) && location == old(location)
                          && imageUrl == old(imageUrl) && closeCalls == old(closeCalls))
    {
      if currentUser.None? || files == [] {
        return None;
      }
      loading := true;
      error := "";
      if uploads.Err? {
        error := ErrorText(uploads.message);
        loading := false;
        return None;
      }
      request := Some(NewPost(currentUser.value.id, caption, location, uploads.value, MediaTypeFor(|files|)));
      if created.Err? {
        error := ErrorText(created.message);
      } else {
        HandleClose();
      }
      loading := false;
    }
  }

  /** The dialog keeps at most one file, so every post it creates is a
      single image: the carousel type is never chosen. */
  lemma DialogNeverMakesCarousels(files: seq<File>)
    requires |files| <= 1
    ensures MediaTypeFor(|files|) == ImagePost
  {
  }
}
