/** The new-story dialog (features/create-story/ui/create-story-modal.tsx):
    the chosen file and its preview, the media type taken from the file's
    MIME type, and what happens after `createStory`. The preview URL and the
    call's outcome are parameters. */
module CreateStory {
  import opened Common
  import opened Types
  import Constants

  /** `file.type.startsWith("video") ? "video" : "image"`. */
  function MediaTypeOf(mimeType: string): (r: StoryMedia)
    ensures r == VideoStory <==> StartsWith(mimeType, "video")
  {
    if StartsWith(mimeType, "video") then VideoStory else ImageStory
  }

  /** Every accepted video type is stored as a video, every accepted image
      type as an image. */
  lemma AcceptedTypesClassified()
    ensures forall t :: t in Constants.AcceptedVideoTypes ==> MediaTypeOf(t) == VideoStory
    ensures forall t :: t in Constants.AcceptedImageTypes ==> MediaTypeOf(t) == ImageStory
  {
    assert MediaTypeOf("video/mp4") == VideoStory by { assert "video/mp4"[..5] == "video"; }
    assert MediaTypeOf("video/quicktime") == VideoStory by { assert "video/quicktime"[..5] == "video"; }
    assert MediaTypeOf("video/webm") == VideoStory by { assert "video/webm"[..5] == "video"; }
    assert MediaTypeOf("image/jpeg") == ImageStory by { assert "image/jpeg"[0] != "video"[0]; }
    assert MediaTypeOf("image/png") == ImageStory by { assert "image/png"[0] != "video"[0]; }
    assert MediaTypeOf("image/webp") == ImageStory by { assert "image/webp"[0] != "video"[0]; }
    assert MediaTypeOf("image/heic") == ImageStory by { assert "image/heic"[0] != "video"[0]; }
  }

  class Modal {
    const currentUser: Option<Profile>
    var file: Option<File>
    var previewUrl: Option<string>
    var uploading: bool
    /** How many times `onClose` has been called. */
    var closeCalls: nat

    constructor (currentUser: Option<Profile>)
      ensures this.currentUser == currentUser
      ensures file.None? && previewUrl.None? && !uploading && closeCalls == 0
    {
      this.currentUser := currentUser;
      file := None;
      previewUrl := None;
      uploading := false;
      closeCalls := 0;
    }

    /** `onFileChange`; `objectUrl` is the preview URL made for the file. */
    method OnFileChange(chosen: Option<File>, objectUrl: string)
      modifies this`file, this`previewUrl
      ensures chosen.None? ==> file == old(file) && previewUrl == old(previewUrl)
      ensures chosen.Some? ==> file == chosen && previewUrl == Some(objectUrl)
    {
      if chosen.None? {
        return;
      }
      file := chosen;
      previewUrl := Some(objectUrl);
    }

    /** `handleClose`: the file and the preview are cleared, then `onClose`
        runs. */
    method HandleClose()
      modifies this`file, this`previewUrl, this`closeCalls
      ensures file.None? && previewUrl.None? && closeCalls == old(closeCalls) + 1
    {
      file := None;
      previewUrl := None;
      closeCalls := closeCalls + 1;
    }

    /** `handleCreateStory`. Returns the request it makes (user id, file,
        media type), if any, and the story passed to `onStoryCreated`.
        `created` is what `createStory` returns or throws. */
    method HandleCreateStory(created: Result<Option<Story>>)
      returns (request: Option<(string, File, StoryMedia)>, delivered: Option<Story>)
      modifies this`file, this`previewUrl, this`closeCalls, this`uploading
      ensures request.Some? <==> currentUser.Some? && old(file).Some?
      ensures request.Some? ==> request.value == (currentUser.value.id, old(file).value, MediaTypeOf(old(file).value.mimeType))
      ensures delivered.Some? <==> request.Some? && created.Ok? && created.value.Some?
      ensures delivered.Some? ==> delivered == created.value
      ensures delivered.Some? ==> file.None? && previewUrl.None? && closeCalls == old(closeCalls) + 1
      ensures delivered.None? ==> file == old(file) && previewUrl == old(previewUrl) && closeCalls == old(closeCalls)
      ensures request.Some? ==> !uploading
      ensures request.None? ==> uploading == old(uploading)
    {
      if currentUser.None? || file.None? {
        return None, None;
      }
      uploading := true;
      var f := file.value;
      request := Some((currentUser.value.id, f, MediaTypeOf(f.mimeType)));
      delivered := None;
      if created.Ok? && created.value.Some? {
        delivered := created.value;
        HandleClose();
      }
      uploading := false;
    }
  }
}
