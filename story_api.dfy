/** The story queries (entities/story/api/index.ts): the viewed mark on
    fetched stories, the storage path and inserted row of `createStory`, the
    view upsert and the delete. */
module StoryApi {
  import opened Common
  import opened Types

  /** The ids the signed-in user has viewed, as used by the annotation: empty
      without a user id, without stories, or when the views query fails or
      returns null. */
  function ViewedIds(currentUserId: Option<string>, rows: seq<Story>, views: Reply<seq<string>>): (r: set<string>)
    ensures !Truthy(currentUserId) || rows == [] || !views.Data? ==> r == {}
    ensures Truthy(currentUserId) && rows != [] && views.Data? ==> forall id :: id in r <==> id in views.value
  {
    if Truthy(currentUserId) && rows != [] && views.Data? then set id | id in views.value else {}
  }

  /** `getStoriesFeed`: [] on an error or null data; otherwise the rows in
      order, each marked viewed exactly when its id is among the viewed ids. */
  function AnnotateStories(reply: Reply<seq<Story>>, currentUserId: Option<string>, views: Reply<seq<string>>)
    : (r: seq<Story>)
    ensures !reply.Data? ==> r == []
    ensures reply.Data? ==>
      && |r| == |reply.value|
      && forall i :: 0 <= i < |r| ==>
           r[i] == reply.value[i].(isViewed := reply.value[i].id in ViewedIds(currentUserId, reply.value, views))
  {
    if !reply.Data? then []
    else
      var rows := reply.value;
      var viewed := ViewedIds(currentUserId, rows, views);
      seq(|rows|, i requires 0 <= i < |rows| => rows[i].(isViewed := rows[i].id in viewed))
  }

  /** Signed out, or with a failed views query, every story is unviewed. */
  lemma NoViewsMeansUnviewed(reply: Reply<seq<Story>>, currentUserId: Option<string>, views: Reply<seq<string>>)
    requires !Truthy(currentUserId) || !views.Data?
    ensures forall i :: 0 <= i < |AnnotateStories(reply, currentUserId, views)| ==>
      !AnnotateStories(reply, currentUserId, views)[i].isViewed
  {
  }

  /** `file.name.split('.').pop() || 'jpg'`. */
  function StoryExtension(fileName: string): (ext: string)
    ensures ext != [] && '.' !in ext
    ensures LastSegment(fileName, '.') != [] ==> ext == LastSegment(fileName, '.')
    ensures LastSegment(fileName, '.') == [] ==> ext == "jpg"
  {
    var last := LastSegment(fileName, '.');
    if last != [] then last else "jpg"
  }

  /** A name without a dot is its own extension. */
  lemma NoDotNameIsExtension(fileName: string)
    requires fileName != [] && '.' !in fileName
    ensures StoryExtension(fileName) == fileName
  {
  }

  /** The storage path `userId/<ms>.<ext>`. */
  function StoryPath(userId: string, now: nat, fileName: string): string {
    userId + ['/'] + NatToString(now) + ['.'] + StoryExtension(fileName)
  }

  /** The first '/'-segment of `a/b.e` is `a` when `a` has no '/'. */
  lemma OwnerOfPath(a: string, b: string, e: string)
    requires '/' !in a
    ensures FirstSegment(a + ['/'] + b + ['.'] + e, '/') == a
  {
    assert a + ['/'] + b + ['.'] + e == a + ['/'] + (b + ['.'] + e);
    FirstSegmentBefore(a, '/', b + ['.'] + e);
  }

  /** The path gives back its owner before the first '/' (user ids have
      none). */
  lemma StoryPathOwner(userId: string, now: nat, fileName: string)
    requires '/' !in userId
    ensures FirstSegment(StoryPath(userId, now, fileName), '/') == userId
  {
    OwnerOfPath(userId, NatToString(now), StoryExtension(fileName));
  }

  /** The path gives back the extension after its last '.'. */
  lemma StoryPathExtension(userId: string, now: nat, fileName: string)
    ensures LastSegment(StoryPath(userId, now, fileName), '.') == StoryExtension(fileName)
  {
    LastSegmentAfter(userId + ['/'] + NatToString(now), '.', StoryExtension(fileName));
  }

  /** `params.duration ?? 5`. */
  function StoryDuration(duration: Option<int>): (r: int)
    ensures duration.Some? ==> r == duration.value
    ensures duration.None? ==> r == 5
  {
    if duration.Some? then duration.value else 5
  }

  /** The row `createStory` inserts. */
  datatype NewStory = NewStory(userId: string, mediaUrl: string, mediaType: StoryMedia, duration: int)

  /** What `createStory` does: the path it uploads to, the row it inserts (if
      the upload gave a URL), and the story it returns (null on any
      failure). */
  datatype CreateStoryOutcome = CreateStoryOutcome(path: string, insert: Option<NewStory>, created: Option<Story>)

  function CreateStory(userId: string, file: File, mediaType: StoryMedia, duration: Option<int>, now: nat,
                       uploadedUrl: Option<string>, inserted: Reply<Story>): (r: CreateStoryOutcome)
    ensures r.path == StoryPath(userId, now, file.name)
    ensures r.insert.Some? <==> uploadedUrl.Some?
    ensures r.insert.Some? ==> r.insert.value == NewStory(userId, uploadedUrl.value, mediaType, StoryDuration(duration))
    ensures r.created.Some? <==> uploadedUrl.Some? && inserted.Data?
    ensures r.created.Some? ==> r.created.value == inserted.value
  {
    var path := StoryPath(userId, now, file.name);
    match uploadedUrl
    case None => CreateStoryOutcome(path, None, None)
    case Some(url) =>
      var row := NewStory(userId, url, mediaType, StoryDuration(duration));
      CreateStoryOutcome(path, Some(row), if inserted.Data? then Some(inserted.value) else None)
  }

  /** `markStoryViewed`: an upsert on (story, user) into the views table;
      a failure is swallowed. */
  function MarkStoryViewed(views: set<(string, string)>, storyId: string, userId: string, writeOk: bool)
    : (r: set<(string, string)>)
    ensures writeOk ==> r == views + {(storyId, userId)}
    ensures !writeOk ==> r == views
  {
    if writeOk then views + {(storyId, userId)} else views
  }

  /** Viewing a story again adds no second row. */
  lemma MarkStoryViewedIdempotent(views: set<(string, string)>, storyId: string, userId: string)
    ensures MarkStoryViewed(MarkStoryViewed(views, storyId, userId, true), storyId, userId, true)
         == MarkStoryViewed(views, storyId, userId, true)
  {
  }

  /** `deleteStory`: the delete error is thrown, as in `deletePost`. */
  function DeleteStory(deleteError: Option<string>): (r: Result<()>)
    ensures r.Ok? <==> deleteError.None?
    ensures deleteError.Some? ==> r == Err(deleteError.value)
  {
    if deleteError.Some? then Err(deleteError.value) else Ok(())
  }
}
