/** Storage paths and calls (shared/lib/supabase/storage.ts): where avatars
    and post images are uploaded, which paths `deletePostImages` removes, and
    how upload and remove errors reach the caller. The storage service's
    replies are parameters. */
module Storage {
  import opened Common
  import opened Types

  /** `file.name.split('.').pop()`: the text after the last '.', or the whole
      name when it has none (no default here, unlike stories). */
  function Extension(fileName: string): (ext: string)
    ensures '.' !in ext
    ensures '.' !in fileName ==> ext == fileName
  {
    LastSegment(fileName, '.')
  }

  /** `uploadFile`: the public URL of the path, or the upload error thrown. */
  function UploadFile(uploadError: Option<string>, publicUrl: string): (r: Result<string>)
    ensures r.Ok? <==> uploadError.None?
    ensures r.Ok? ==> r.value == publicUrl
    ensures r.Err? ==> r.message == uploadError.value
  {
    if uploadError.Some? then Err(uploadError.value) else Ok(publicUrl)
  }

  /** `uploadAvatar`'s path: `userId/avatar.ext`. */
  function AvatarPath(userId: string, fileName: string): (path: string)
    ensures path == userId + "/avatar." + Extension(fileName)
  {
    userId + "/avatar." + Extension(fileName)
  }

  /** A user's avatar always lands on one path per extension, so a new upload
      of the same type replaces the old one (uploads are upserts). */
  lemma AvatarPathKeepsExtension(userId: string, fileName: string)
    ensures LastSegment(AvatarPath(userId, fileName), '.') == Extension(fileName)
  {
    assert AvatarPath(userId, fileName) == (userId + "/avatar") + ['.'] + Extension(fileName);
    LastSegmentAfter(userId + "/avatar", '.', Extension(fileName));
  }

  /** The part of an image path before `.ext`:
      `userId/postId/<ms>_<index>`. */
  function ImageStem(userId: string, postId: string, now: nat, index: nat): (stem: string)
    ensures LastSegment(stem, '_') == NatToString(index)
  {
    var before := userId + "/" + postId + "/" + NatToString(now);
    var digits := NatToString(index);
    DigitsLackSeparator(digits, '_');
    LastSegmentAfter(before, '_', digits);
    before + ['_'] + digits
  }

  /** Splitting `stem.ext` at its last '.' gives back the stem, and so
      whatever the stem's last segment holds. */
  lemma SplitAtLastDot(stem: string, ext: string, tail: string)
    requires '.' !in ext && LastSegment(stem, '_') == tail
    ensures var path := stem + ['.'] + ext;
      var e := LastSegment(path, '.');
      |e| < |path| && LastSegment(path[..|path| - |e| - 1], '_') == tail
  {
    var path := stem + ['.'] + ext;
    LastSegmentAfter(stem, '.', ext);
    assert path[..|stem|] == stem;
  }

  /** The image index can be read back from the path: the digits between the
      last '_' and the last '.'. */
  lemma PostImagePathIndex(userId: string, postId: string, now: nat, index: nat, fileName: string)
    ensures var path := ImageStem(userId, postId, now, index) + ['.'] + Extension(fileName);
      var ext := LastSegment(path, '.');
      |ext| < |path| && LastSegment(path[..|path| - |ext| - 1], '_') == NatToString(index)
  {
    SplitAtLastDot(ImageStem(userId, postId, now, index), Extension(fileName), NatToString(index));
  }

  /** `uploadPostImages`' paths: one per file, in file order. */
  function PostImagePaths(userId: string, postId: string, stamps: seq<nat>, files: seq<File>): (paths: seq<string>)
    requires |stamps| == |files|
    ensures |paths| == |files|
    ensures forall i :: 0 <= i < |files| ==> paths[i] == ImageStem(userId, postId, stamps[i], i) + ['.'] + Extension(files[i].name)
  {
    seq(|files|, i requires 0 <= i < |files| => ImageStem(userId, postId, stamps[i], i) + ['.'] + Extension(files[i].name))
  }

  /** The images of one post never overwrite each other, even when the
      clock reads the same for all of them. */
  lemma PostImagePathsDistinct(userId: string, postId: string, stamps: seq<nat>, files: seq<File>)
    requires |stamps| == |files|
    ensures Distinct(PostImagePaths(userId, postId, stamps, files))
  {
    var paths := PostImagePaths(userId, postId, stamps, files);
    forall i, j | 0 <= i < j < |paths| ensures paths[i] != paths[j] {
      if paths[i] == paths[j] {
        PostImagePathIndex(userId, postId, stamps[i], i, files[i].name);
        PostImagePathIndex(userId, postId, stamps[j], j, files[j].name);
        NatToStringInjective(i, j);
      }
    }
  }

  /** `Promise.all` over the uploads of `uploadPostImages`, given what each
      `uploadFile` call returned or threw, in file order: every URL in file
      order, or a thrown error of one of the failed uploads. */
  function AllUploaded(uploads: seq<Result<string>>): (r: Result<seq<string>>)
    ensures r.Ok? <==> forall i :: 0 <= i < |uploads| ==> uploads[i].Ok?
    ensures r.Ok? ==> |r.value| == |uploads| && forall i :: 0 <= i < |uploads| ==> r.value[i] == uploads[i].value
    ensures r.Err? ==> exists i :: 0 <= i < |uploads| && uploads[i] == Err(r.message)
  {
    if uploads == [] then Ok([])
    else match uploads[0]
      case Err(e) => Err(e)
      case Ok(url) =>
        var rest := AllUploaded(uploads[1..]);
        if rest.Err? then
          assert exists i :: 0 <= i < |uploads[1..]| && uploads[1..][i] == Err(rest.message);
          Err(rest.message)
        else Ok([url] + rest.value)
  }

  /** `deleteFile`: the remove error is thrown. The source repeats this
      shape in `deletePost` and `deleteStory`. */
  function DeleteFile(removeError: Option<string>): (r: Result<()>)
    ensures r.Ok? <==> removeError.None?
    ensures r.Err? ==> r.message == removeError.value
  {
    if removeError.Some? then Err(removeError.value) else Ok(())
  }

  /** The paths `deletePostImages` removes for the listed file names. */
  function ListedPaths(userId: string, postId: string, names: seq<string>): (r: seq<string>)
    ensures |r| == |names|
    ensures forall i :: 0 <= i < |r| ==> r[i] == userId + "/" + postId + "/" + names[i]
  {
    seq(|names|, i requires 0 <= i < |names| => userId + "/" + postId + "/" + names[i])
  }

  /** `deletePostImages`, given the folder listing (null data is `None`) and
      the remove call's error. Returns the paths it asks to remove, if it
      asks, and whether it throws. */
  function DeletePostImages(userId: string, postId: string, listing: Option<seq<string>>, removeError: Option<string>)
    : (r: (Option<seq<string>>, Result<()>))
    ensures r.0.Some? <==> listing.Some? && listing.value != []
    ensures r.0.Some? ==> r.0.value == ListedPaths(userId, postId, listing.value)
    ensures r.1.Err? <==> r.0.Some? && removeError.Some?
  {
    if listing.Some? && listing.value != [] then
      (Some(ListedPaths(userId, postId, listing.value)), if removeError.Some? then Err(removeError.value) else Ok(()))
    else (None, Ok(()))
  }

  /** Every removed path lies in the post's folder. */
  lemma RemovedPathsInFolder(userId: string, postId: string, listing: Option<seq<string>>, removeError: Option<string>)
    ensures var r := DeletePostImages(userId, postId, listing, removeError).0;
      r.Some? ==> forall i :: 0 <= i < |r.value| ==> StartsWith(r.value[i], userId + "/" + postId + "/")
  {
  }
}
