/** Route builders and numeric limits (shared/lib/constants.ts). */
module Constants {

  const Home := "/"
  const Explore := "/explore"
  const Reels := "/reels"
  const Messages := "/messages"
  const Notifications := "/notifications"
  const Create := "/create"
  const EditProfile := "/accounts/edit"
  const Settings := "/settings"
  const Login := "/auth/login"
  const Register := "/auth/register"

  const MaxCaptionLength := 2200
  const MaxBioLength := 150
  const MaxPostImages := 10
  /** 50 MiB. */
  const MaxFileSize := 50 * 1024 * 1024
  /** How long a story lives: 24 hours, in milliseconds. */
  const StoryDuration := 24 * 60 * 60 * 1000
  /** Seconds. */
  const MaxReelDuration := 90

  const AcceptedImageTypes := ["image/jpeg", "image/png", "image/webp", "image/heic"]
  const AcceptedVideoTypes := ["video/mp4", "video/quicktime", "video/webm"]

  /** `ROUTES.PROFILE`. */
  function ProfileRoute(username: string): (r: string)
    ensures |r| == |username| + 1 && r[0] == '/' && r[1..] == username
  {
    "/" + username
  }

  /** `ROUTES.POST`. */
  function PostRoute(postId: string): (r: string)
    ensures |r| == |postId| + 3 && r[..3] == "/p/" && r[3..] == postId
  {
    "/p/" + postId
  }

  /** `ROUTES.REEL`: built the same way as `ROUTES.POST`, under its own
      prefix. */
  function ReelRoute(reelId: string): (r: string)
    ensures |r| == |reelId| + 3 && r[..3] == "/r/" && r[3..] == reelId
  {
    "/r/" + reelId
  }

  /** Each builder gives distinct routes for distinct arguments, and post
      and reel routes never coincide. */
  lemma RoutesAreUnambiguous(a: string, b: string)
    ensures ProfileRoute(a) == ProfileRoute(b) ==> a == b
    ensures PostRoute(a) == PostRoute(b) ==> a == b
    ensures ReelRoute(a) == ReelRoute(b) ==> a == b
    ensures PostRoute(a) != ReelRoute(b)
  {
    assert PostRoute(a)[1] == 'p' && ReelRoute(b)[1] == 'r';
  }

  /** A profile route for a username without '/' never coincides with a
      post or a reel route. */
  lemma ProfileRoutesAreSeparate(username: string, id: string)
    requires '/' !in username
    ensures ProfileRoute(username) != PostRoute(id)
    ensures ProfileRoute(username) != ReelRoute(id)
  {
    assert PostRoute(id)[2] == '/' && ReelRoute(id)[2] == '/';
    assert |username| >= 2 ==> ProfileRoute(username)[2] == username[1] && username[1] in username;
  }

}
