# Russiagram in Dafny

Russiagram is a photo-sharing web client written in React and Next.js. It
talks to a Supabase backend: a Postgres database, authentication and file
storage. Its features are:

- a home feed of posts, with likes, saves, an image carousel and an options menu;
- stories grouped by author, with a full-screen viewer;
- reels;
- direct messages, including a realtime message stream;
- notifications;
- comments;
- follows;
- user search;
- sign-up;
- editors for the profile, for posts and for stories.

This project models the client logic behind those features in Dafny:

- the query functions of the `entities/*/api` files;
- the storage helpers;
- the current-user store;
- the toast queue;
- the route and limit constants;
- the state handlers of the pages, widgets and dialogs.

Every backend reply, clock reading, random id and user answer is a
parameter:

- A reply is a `Reply` value: `Data`, `NullData` (no error, but `data` is null) or `Failure`.
- A thrown error is the `Err` case of a `Result`.
- The current time and a drawn id are plain parameters.
- Whether a write reached the table is a `bool`.

Pure query logic is written as functions. Every piece of React state becomes
a field of a class, and each handler becomes a method that names the fields
it changes in `modifies` and gives their new values in `ensures`. The
properties proved about the model are lemmas over the functions those
methods are proved against.

Module layout: one file per source file, plus three shared modules:

- `common.dfy` holds the `Reply`/`Result`/`Option` wrappers and models of the JavaScript built-ins the code uses (`trim`, `split(..).pop()`, `toLowerCase` on ASCII, `filter`, number printing).
- `types.dfy` holds the shared row types.
- `relation.dfy` holds a two-column table with the lookup-then-flip that every "toggle" function performs.

The model follows what the code does, including where it stops short of what a reader might expect:

- A message delivered twice by the realtime channel is appended twice. `Direct.RealtimeDuplicateIsKept` proves it.
- `createConversation` never looks for an existing conversation. `MessageApi.CreateConversationNeverReuses` proves it.
- `toggleFollow` does not stop a user from following themself.
- The create-post dialog keeps only the first chosen file, so it never makes a carousel post. `CreatePost.DialogNeverMakesCarousels` proves this.
- A video chosen in that dialog is posted with media type `image`.

## Model

| member | source | states |
|---|---|---|
| Relation.Toggled | entities/post/api/index.ts:91-106 | The reported state is true exactly when the lookup did not find a row. A row is found only when the lookup query succeeds and exactly one row matches. Only the toggled pair's row count changes: it drops to 0 when a row was found and grows by one otherwise. A failed write leaves the table as it was. |
| Relation.ToggleReportsNewState | entities/post/api/index.ts:91-106 | In a table with at most one row per pair, a written flip reports exactly the pair's new membership and keeps at most one row. |
| Relation.ToggleTwiceRestores | entities/post/api/index.ts:91-106 | Two written flips of the same pair give back the original table. |
| Relation.DuplicatesOnlyGrow | entities/reel/api/index.ts:30-45 | With two or more rows for a pair, `maybeSingle` finds none, so the flip adds yet another row and reports "liked". |
| Relation.FailedLookupDuplicates | entities/post/api/index.ts:91-106 | A failed lookup's null data reads as "no row", so a pair that already has its row gets a second one and the flip reports "liked". |
| Relation.PairTable.Toggle | entities/post/api/index.ts:91-106 | The table and the returned flag are those of `Toggled` on the old table, given whether the lookup and the write succeed. |
| Relation.PairTable.Contains | entities/follow/api/index.ts:41-53 | True exactly when one row matches the pair. |
| MessageApi.UserConversations | entities/message/api/index.ts:4-14 | One conversation per participant row, in row order. Null data gives the empty list. |
| MessageApi.ConversationMessages | entities/message/api/index.ts:16-27 | The fetched rows unchanged, or [] when data is null. |
| MessageApi.SendMessage | entities/message/api/index.ts:29-49 | Success exactly when a row comes back, and it is that row. An insert error is thrown with its own message. |
| MessageApi.ParticipantRecords | entities/message/api/index.ts:60-63 | One participant record per id, all for the new conversation. |
| MessageApi.UserIds | entities/message/api/index.ts:60-63 | The user ids the participant records name, one per record, in order. |
| MessageApi.ParticipantRecordsUsers | entities/message/api/index.ts:60-63 | The records name exactly the given ids, in the given order. |
| MessageApi.CreateConversation | entities/message/api/index.ts:51-68 | A failed conversation insert is thrown and writes nothing. Otherwise the conversation is appended whatever already exists. The participant records are added only when their insert succeeds. The conversation is returned in both cases. |
| MessageApi.CreateConversationNeverReuses | entities/message/api/index.ts:51-68 | Starting a chat with the same people twice creates two conversations and two sets of participant records. |
| Direct.ConversationLabel | app/direct/page.tsx:254 | The conversation's name when it is non-empty, otherwise "Диалог". |
| Direct.SenderPrefix | app/direct/page.tsx:258-260 | "username: " when the sender has a non-empty username, otherwise nothing. |
| Direct.Preview | app/direct/page.tsx:256-262 | A preview line exists exactly when there is a last message. It is the sender prefix followed by the text, or by "Вложение" when the text is empty. |
| Direct.PreviewEndsWithContent | app/direct/page.tsx:256-262 | A preview always ends with the message text, or with "Вложение" when there is no text. |
| Direct.AfterRealtimeInsert | app/direct/page.tsx:96-101 | The signed-in user's own messages are dropped. Every other message is appended at the end of the log. |
| Direct.RealtimeDuplicateIsKept | app/direct/page.tsx:96-101 | No id check is made: a message from someone else delivered twice appears twice. |
| Direct.Inbox.constructor | app/direct/page.tsx:42-47 | The page starts empty, with the `?id=` parameter selected when it is non-empty. |
| Direct.Inbox.LoadConversations | app/direct/page.tsx:49-67 | Loading always ends. The list is replaced only for a signed-in user whose fetch succeeded. |
| Direct.Inbox.SelectConversation | app/direct/page.tsx:116-118 | The chosen conversation becomes selected. |
| Direct.Inbox.LoadMessages | app/direct/page.tsx:69-84 | Nothing happens without a selection. With one, the fetched messages replace the log, a throw keeps it, and loading ends. |
| Direct.Inbox.OnRealtimeInsert | app/direct/page.tsx:96-101 | The log becomes `AfterRealtimeInsert` of the old log. |
| Direct.Inbox.HandleSend | app/direct/page.tsx:120-136 | A request is made exactly when a user is signed in, a conversation is selected and the trimmed text is non-empty. It carries the trimmed text. On success the returned message is appended and the input cleared. Otherwise nothing changes. |
| Direct.Inbox.HandleSearchUsers | app/direct/page.tsx:138-161 | The query is always stored. The search runs exactly for a signed-in user and a non-blank query; otherwise the results are emptied. Rows replace the results, null data empties them, and an error keeps them. |
| Direct.Inbox.HandleStartConversation | app/direct/page.tsx:163-175 | Without a user nothing happens. Otherwise the two participant ids are sent. On success the new conversation goes to the front and is selected, and the dialog is closed and cleared. On a throw nothing changes. |
| PostApi.LikeCount | entities/post/api/index.ts:24 | The number of embedded likes, or 0 when the embed is absent. |
| PostApi.CommentCount | entities/post/api/index.ts:25 | The first embedded count, or 0 when there is none. |
| PostApi.Annotate | entities/post/api/index.ts:21-26 | The post is marked liked exactly when the user has an embedded like. The two counts come from the embeds. Every other field is as fetched. |
| PostApi.AnnotatePosts | entities/post/api/index.ts:4-27 | A query with null data (an error included, since it is not read) gives []. Otherwise there is one annotated post per row, in row order. |
| PostApi.SignedOutLikesNothing | entities/post/api/index.ts:23 | Without a signed-in user no post is marked liked. |
| PostApi.LikerIds | entities/post/api/index.ts:23 | The user ids of the embedded likes, one per like and in order. |
| PostApi.LikedPostHasALike | entities/post/api/index.ts:23-24 | A post is marked liked exactly when the user is among its likers. A liked post's count is then at least one. |
| PostApi.PageRange | entities/post/api/index.ts:16 | The inclusive range starts at the offset and holds exactly `limit` rows. |
| PostApi.RowOnOnePage | entities/post/api/index.ts:16 | With pages asked for at offset `page * limit`, every row position is covered by exactly one page, the page numbered `k / limit`. The pages neither overlap nor leave a gap. |
| PostApi.CreatePost | entities/post/api/index.ts:66-84 | Success exactly when a row comes back, and it is that row. An insert error is thrown. |
| PostApi.DeletePost | entities/post/api/index.ts:86-89 | A delete error is thrown; otherwise the call succeeds. |
| PostApi.PostRelations.ToggleLike | entities/post/api/index.ts:91-106 | The likes table flips as `Toggled` says, and the saved table is untouched. |
| PostApi.PostRelations.ToggleSave | entities/post/api/index.ts:108-123 | The saved table flips as `Toggled` says, and the likes table is untouched. |
| Feed.Ids | widgets/feed/ui/feed.tsx:27-37 | The set of the ids of the shown posts. |
| Feed.MergePage | widgets/feed/ui/feed.tsx:27-37 | The posts already shown stay first. After them come the fetched posts whose id is not yet shown, in page order. |
| Feed.MergeShowsWholePage | widgets/feed/ui/feed.tsx:27-37 | After a merge, the shown ids are exactly the old ids plus the page's ids. |
| Feed.FilterKeepsDistinct | widgets/feed/ui/feed.tsx:28-30 | Filtering a page with distinct ids keeps them distinct. |
| Feed.MergeKeepsIdsDistinct | widgets/feed/ui/feed.tsx:27-37 | No post is ever shown twice: distinct ids stay distinct across merges. |
| Feed.ApplyLike | widgets/feed/ui/feed.tsx:80-101 | Only posts with that id change. They take the reported like state, and their count moves by one in its direction. |
| Feed.LikeThenUnlikeRestores | widgets/feed/ui/feed.tsx:80-101 | Liking and then unliking a post that was not liked restores the list. |
| Feed.ApplySave | widgets/feed/ui/feed.tsx:103-116 | Only posts with that id change, and only their saved flag. |
| Feed.ApplySaveIdempotent | widgets/feed/ui/feed.tsx:103-116 | Saving the same state twice equals saving it once. |
| Feed.FeedState.LoadPosts | widgets/feed/ui/feed.tsx:18-51 | No request is made once `hasMore` is false. Otherwise page `page` of five is asked for. An empty page stops paging. A short page is merged and stops paging. A full page is merged and advances the page. A throw keeps the posts. |
| Feed.FeedState.HandleLike | widgets/feed/ui/feed.tsx:80-101 | For a signed-in user whose toggle succeeds, the posts become `ApplyLike` of the old posts. Otherwise they are unchanged. |
| Feed.FeedState.HandleSave | widgets/feed/ui/feed.tsx:103-116 | For a signed-in user whose toggle succeeds, the posts become `ApplySave` of the old posts. Otherwise they are unchanged. |
| ReelApi.CounterOrZero | entities/reel/api/index.ts:25-26 | A stored counter, or 0 when it is null. |
| ReelApi.Annotate | entities/reel/api/index.ts:22-27 | The liked mark comes from the embedded likes. The counts are the stored counters. Every other field is as fetched. |
| ReelApi.AnnotateReels | entities/reel/api/index.ts:4-28 | An error or null data gives []. Otherwise there is one annotated reel per row, in order. |
| ReelApi.CountIsNotRecomputed | entities/reel/api/index.ts:24-25 | The shown count is the stored counter, not the number of likes: a reel liked by the user can show a count of 0. |
| ReelApi.ReelLikes.ToggleReelLike | entities/reel/api/index.ts:30-45 | The likes table and the result are those of `Toggled`. |
| ReelsPage.ApplyReelLike | app/reels/page.tsx:44-63 | Only reels with that id change. They take the reported state, and their count moves by one. |
| ReelsPage.LikeThenUnlikeRestoresCounts | app/reels/page.tsx:44-63 | Liking and then unliking a reel leaves every like count where it was. |
| ReelsPage.Reels.LoadReels | app/reels/page.tsx:33-42 | The fetched reels replace the list, a throw keeps it, and loading ends. |
| ReelsPage.Reels.HandleLike | app/reels/page.tsx:44-63 | Without a user the page redirects to login. Otherwise the toggle is requested for that user, and a success applies `ApplyReelLike`. |
| ReelsPage.Reels.ToggleMute | app/reels/page.tsx:128 | The mute flag flips. |
| NotificationApi.TruthyActorIds | entities/notification/api/index.ts:22-24 | Every truthy actor id of the rows, and nothing else. |
| NotificationApi.ActorIds | entities/notification/api/index.ts:20-26 | Each truthy actor id of the rows, exactly once. |
| NotificationApi.Lookup | entities/notification/api/index.ts:40 | None exactly when no actor has the id. Otherwise the result is the last actor with that id, as `Object.fromEntries` keeps it. |
| NotificationApi.ActorsById | entities/notification/api/index.ts:28-42 | Empty when no actor query is made, when it fails or when it returns null data. Otherwise it is the fetched actors. |
| NotificationApi.Join | entities/notification/api/index.ts:44-47 | The actor is attached exactly when the actor id is truthy and some fetched profile has it. Every other field is unchanged. |
| NotificationApi.GetUserNotifications | entities/notification/api/index.ts:6-48 | A failed query or null data gives [] and no actor query. Otherwise each row is joined, in order, and the actor query is made exactly when some actor id is truthy. |
| NotificationApi.ActorFailureKeepsNotifications | entities/notification/api/index.ts:36-47 | A failed actor query still returns every notification, in order, with no actor. |
| NotificationApi.JoinedActorsMatch | entities/notification/api/index.ts:44-47 | Every attached actor is the profile of that row's actor id. |
| NotificationApi.CreateNotification | entities/notification/api/index.ts:50-74 | A successful insert appends the row. A failed one is swallowed and leaves the table as it was. |
| NotificationsPage.ActionText | app/notifications/page.tsx:82-100 | The sentence for each of the five types, and "действие" for any other type. |
| NotificationsPage.KnownTypesAreDistinguished | app/notifications/page.tsx:82-100 | The five known types read as five different sentences, none of them the fallback. |
| NotificationsPage.ActorName | app/notifications/page.tsx:115 | The actor's username when it is non-empty, otherwise "Кто-то". |
| NotificationsPage.ShowsUnreadMarker | app/notifications/page.tsx:123-125 | The blue dot is shown exactly for an unread notification. |
| NotificationsPage.AfterLoad | app/notifications/page.tsx:23-41 | Loading always ends. Signed out, the list is kept. Signed in, it is replaced on success and kept on a throw. |
| FollowApi.Present | entities/follow/api/index.ts:5-19 | Exactly the joined profiles that are present. The list is never longer than the rows. |
| FollowApi.ProfileList | entities/follow/api/index.ts:21-35 | An error or null data gives []. Otherwise it is the present profiles. |
| FollowApi.PresentOne | entities/follow/api/index.ts:5-19 | A single row gives its profile when it has one, and nothing otherwise. |
| FollowApi.PresentAppend | entities/follow/api/index.ts:5-19 | The profiles kept from two lists of rows, one after the other, are those kept from the first list followed by those kept from the second, so the order of the rows is kept. |
| FollowApi.PresentKeepsFullList | entities/follow/api/index.ts:5-19 | When every row has its profile, nothing is dropped and the order is kept. |
| FollowApi.CheckIsFollowing | entities/follow/api/index.ts:37-54 | True exactly for a signed-in user, a successful query and exactly one follow row. |
| FollowApi.FollowNotification | entities/follow/api/index.ts:85-89 | The notification goes to the followed user, from the follower, with type "follow" and no post, reel or comment. |
| FollowApi.Follows.ToggleFollow | entities/follow/api/index.ts:56-91 | Signed out, it throws "Not authenticated". A write error is thrown. A row found by a successful lookup is deleted and false returned. Otherwise, including after a failed lookup that is only logged, a row is inserted, the follow notification is sent when its insert succeeds, and true is returned. |
| Comments.AuthorOf | features/comments/ui/comments-modal.tsx:89-99 | The attached author carries the profile's id, username, name and avatar. |
| Comments.LoadedComments | features/comments/ui/comments-modal.tsx:50-68 | Fetched rows replace the list, null data empties it, and a query error keeps it. |
| Comments.CommentNotification | features/comments/ui/comments-modal.tsx:102-120 | A notification is sent exactly when the post's owner is found and is not the commenter. It names the owner, the commenter, the post and the comment. |
| Comments.NoSelfNotification | features/comments/ui/comments-modal.tsx:109-117 | Nobody is notified of their own comment. Every notification goes to the post's owner, who is not its actor, and names the commenter as the actor. |
| Comments.Dialog.constructor | features/comments/ui/comments-modal.tsx:50-68 | The dialog starts empty for its post and user. |
| Comments.Dialog.LoadComments | features/comments/ui/comments-modal.tsx:50-68 | The list becomes `LoadedComments` of the old list. |
| Comments.Dialog.HandleSubmit | features/comments/ui/comments-modal.tsx:70-126 | An insert is asked for exactly when a user is signed in and the trimmed text is non-empty, with the trimmed text. A returned row is appended with its author and the input cleared. Otherwise the list and the input are kept. |
| StoryApi.ViewedIds | entities/story/api/index.ts:21-39 | Empty signed out, for an empty feed and when the views query fails. Otherwise it is exactly the returned story ids. |
| StoryApi.AnnotateStories | entities/story/api/index.ts:4-50 | An error or null data gives []. Otherwise the rows come in order, each marked viewed exactly when its id was viewed. |
| StoryApi.NoViewsMeansUnviewed | entities/story/api/index.ts:23-37 | Signed out, or with a failed views query, every story is unviewed. |
| StoryApi.StoryExtension | entities/story/api/index.ts:59 | The text after the last dot, or "jpg" when that is empty. It is never empty and holds no dot. |
| StoryApi.StoryPath | entities/story/api/index.ts:59-60 | The storage path `userId/now.ext`. `StoryPathOwner` and `StoryPathExtension` state what can be read back from it. |
| StoryApi.NoDotNameIsExtension | entities/story/api/index.ts:59 | A name without a dot is its own extension. |
| StoryApi.StoryPathOwner | entities/story/api/index.ts:60 | For a user id without '/', the path gives back its owner before the first slash. |
| StoryApi.StoryPathExtension | entities/story/api/index.ts:59-60 | The path gives back the file's extension after its last dot. |
| StoryApi.StoryDuration | entities/story/api/index.ts:83 | The given duration, or 5 when none is given. |
| StoryApi.CreateStory | entities/story/api/index.ts:52-101 | The file goes to the computed path. The row is inserted only after a successful upload, with the public URL and the duration. A story is returned only when both the upload and the insert succeed. |
| StoryApi.MarkStoryViewed | entities/story/api/index.ts:103-118 | A successful upsert adds the (story, user) pair. A failure changes nothing. |
| StoryApi.MarkStoryViewedIdempotent | entities/story/api/index.ts:103-118 | Viewing a story again adds no second row. |
| StoryApi.DeleteStory | entities/story/api/index.ts:120-123 | A delete error is thrown; otherwise the call succeeds. |
| StoriesBar.FirstStoryOf | widgets/stories/ui/stories-bar.tsx:40-49 | The position of a user's first story in the feed, or -1 when there is none. |
| StoriesBar.Keys | widgets/stories/ui/stories-bar.tsx:40-49 | The user ids of the groups, in order. |
| StoriesBar.Grouped | widgets/stories/ui/stories-bar.tsx:37-51 | The per-user groups built one story at a time, as the loop over the feed builds them. `GroupedIsGrouping` states what they hold. |
| StoriesBar.Groups | widgets/stories/ui/stories-bar.tsx:37-62 | The groups with the signed-in user's group moved to the front. `GroupsAreGrouping` and `OwnGroupIsFirst` state what they hold. |
| StoriesBar.StoriesOfSnoc | widgets/stories/ui/stories-bar.tsx:40-49 | Appending a story adds it to its own user's stories only. |
| StoriesBar.FirstStoryOfSnoc | widgets/stories/ui/stories-bar.tsx:40-49 | Appending a story keeps every first position. It becomes the first story only of a user who had none. |
| StoriesBar.NoStoriesOf | widgets/stories/ui/stories-bar.tsx:40-49 | A user with no story in the feed has no stories. |
| StoriesBar.FirstStoryOfGroup | widgets/stories/ui/stories-bar.tsx:40-49 | Each group's first story keeps its position when a story is appended. |
| StoriesBar.OrderedAfterSnoc | widgets/stories/ui/stories-bar.tsx:40-49 | Appending a story keeps the groups ordered by first story. |
| StoriesBar.AddWithoutUser | widgets/stories/ui/stories-bar.tsx:42 | A story without a user is skipped, and the groups stay a grouping of the longer feed. |
| StoriesBar.PushKeepsUsers | widgets/stories/ui/stories-bar.tsx:46-48 | Pushing onto an existing group keeps every group's user and position, so every lookup by user id is unchanged. |
| StoriesBar.PushHoldsOwnStories | widgets/stories/ui/stories-bar.tsx:46-48 | After the push, each group still holds exactly its user's stories, in feed order. |
| StoriesBar.AddToExisting | widgets/stories/ui/stories-bar.tsx:46-48 | A story whose user has a group joins the end of that group, and the result is still a grouping. |
| StoriesBar.NewGroupHoldsOwnStories | widgets/stories/ui/stories-bar.tsx:43-45 | A new group holds exactly its user's one story, and every other group is unchanged. |
| StoriesBar.NewGroupCoversFeed | widgets/stories/ui/stories-bar.tsx:43-45 | With the new group, every story that has a user is in some group. |
| StoriesBar.NewGroupOrdered | widgets/stories/ui/stories-bar.tsx:43-45 | The new group comes last, after every user whose first story is earlier. |
| StoriesBar.AddNewGroup | widgets/stories/ui/stories-bar.tsx:43-45 | A story from a user without a group opens a new group at the end, and the result is still a grouping. |
| StoriesBar.GroupedIsGrouping | widgets/stories/ui/stories-bar.tsx:37-62 | The grouping loop holds for every feed. One group per user. Each group holds exactly its user's stories, in feed order. Every story with a user is covered. Groups are ordered by first story. |
| StoriesBar.NewGroupIndex | widgets/stories/ui/stories-bar.tsx:43-45 | A new group's user is found at the end, and every other user keeps its position. |
| StoriesBar.GroupByUser | widgets/stories/ui/stories-bar.tsx:40-49 | The loop with its id-to-position map computes `Grouped`. |
| StoriesBar.CurrentFirst | widgets/stories/ui/stories-bar.tsx:53-59 | The groups are permuted so that the signed-in user's group, when there is one, comes first; with no signed-in user or no own group the order is unchanged. |
| StoriesBar.CurrentFirstKeepsOthersInOrder | widgets/stories/ui/stories-bar.tsx:53-59 | The sort is stable: every other group keeps its relative order. |
| StoriesBar.CurrentUserGroupIndex | widgets/stories/ui/stories-bar.tsx:64-67 | The index of the signed-in user's group, or -1 when signed out or when the user has no group. |
| StoriesBar.HasOwnGroup | widgets/stories/ui/stories-bar.tsx:37-62 | A user with a story in the feed has a group. |
| StoriesBar.LacksOwnGroup | widgets/stories/ui/stories-bar.tsx:37-62 | A user without a story in the feed has no group. |
| StoriesBar.OwnGroupIsFirst | widgets/stories/ui/stories-bar.tsx:53-67 | The signed-in user's group index is 0 exactly when they have a story in the feed, and -1 otherwise. |
| StoriesBar.GroupsAreGrouping | widgets/stories/ui/stories-bar.tsx:37-62 | After the sort every group is non-empty and holds exactly its user's stories. |
| StoriesBar.MarkViewed | widgets/stories/ui/stories-bar.tsx:75-79 | Only stories with that id change, and they become viewed. |
| StoriesBar.RemoveStory | widgets/stories/ui/stories-bar.tsx:85-88 | Every story with that id is gone, and every other story keeps its number of occurrences. |
| StoriesBar.RemoveStoryKeepsOrder | widgets/stories/ui/stories-bar.tsx:85-88 | One story is kept exactly when its id differs, and the stories kept from two lists, one after the other, are those kept from the first followed by those kept from the second, so the order is kept. |
| StoriesBar.HasUnviewed | widgets/stories/ui/stories-bar.tsx:138 | The coloured ring is shown when some story of the group has not been viewed. |
| StoriesBar.ViewingClearsRing | widgets/stories/ui/stories-bar.tsx:75-79 | Viewing a group's only unviewed story takes away that group's ring. |
| StoriesBar.Bar.constructor | widgets/stories/ui/stories-bar.tsx:26-35 | The bar starts loading, with no stories and the viewer closed. |
| StoriesBar.Bar.LoadStories | widgets/stories/ui/stories-bar.tsx:26-35 | The fetched feed replaces the list, a throw keeps it, and loading ends. |
| StoriesBar.Bar.OpenViewerForUser | widgets/stories/ui/stories-bar.tsx:69-73 | Only an index inside the shown groups opens the viewer on that group. |
| StoriesBar.Bar.HandleStoryViewed | widgets/stories/ui/stories-bar.tsx:75-79 | The feed becomes `MarkViewed` of the old feed. |
| StoriesBar.Bar.HandleStoryCreated | widgets/stories/ui/stories-bar.tsx:81-83 | The new story goes to the front of the feed. |
| StoriesBar.Bar.HandleStoryDeleted | widgets/stories/ui/stories-bar.tsx:85-88 | A delete error is thrown and keeps the feed. Otherwise the story is removed. |
| StoriesBar.Bar.HandleMyStoryClick | widgets/stories/ui/stories-bar.tsx:90-96 | Opens the viewer on the user's own group when there is one, and otherwise the create dialog. |
| StoryViewer.CurrentGroup | features/view-story/ui/story-viewer.tsx:35-40 | A group is shown exactly when the list is non-empty and the index is not negative. It is the group at the index clamped to the last group. |
| StoryViewer.CurrentStory | features/view-story/ui/story-viewer.tsx:35-40 | The story at the index clamped to the last story of the shown group, or none. |
| StoryViewer.NonEmptyViewerShowsStory | features/view-story/ui/story-viewer.tsx:35-46 | A viewer on non-empty groups at non-negative indices always shows a story, so it does not close itself. |
| StoryViewer.Next | features/view-story/ui/story-viewer.tsx:71-82 | Without a group nothing happens. Before the last story of the shown group it moves to the next story. From the last story it moves to the first story of the next group, or closes after the last group. From valid indices it stays valid, and it closes exactly at the very last story. |
| StoryViewer.Prev | features/view-story/ui/story-viewer.tsx:84-96 | Without a group nothing happens. Past the first story it moves to the previous story of the group. At the first story it moves to the last story of the previous group. If that group no longer exists, only the group index moves, because reading its stories throws. It closes exactly at the very first story. |
| StoryViewer.PrevUndoesNext | features/view-story/ui/story-viewer.tsx:71-96 | "Previous" undoes every "next" that moves. |
| StoryViewer.NextUndoesPrev | features/view-story/ui/story-viewer.tsx:71-96 | "Next" undoes every "previous" that moves. |
| StoryViewer.StoryIndexAfterDelete | features/view-story/ui/story-viewer.tsx:106-111 | The index steps back exactly when it is past 0 and at or past the last index of the group as it was before the delete. It never goes negative, and it stays inside a group that keeps a story. |
| StoryViewer.StoryToMarkViewed | features/view-story/ui/story-viewer.tsx:60-69 | A view is recorded exactly for a shown, unviewed story and a signed-in user. |
| StoryViewer.IsOwner | features/view-story/ui/story-viewer.tsx:135 | The delete button is shown only to a signed-in user whose own group is on screen. |
| StoryViewer.AutoAdvanceMs | features/view-story/ui/story-viewer.tsx:48-58 | Video stories never auto-advance. An image story advances after its duration in seconds, or after 5 s when the duration is 0. |
| StoryViewer.Viewer.constructor | features/view-story/ui/story-viewer.tsx:35-40 | The viewer opens on the given group at its first story. |
| StoryViewer.Viewer.Apply | features/view-story/ui/story-viewer.tsx:71-96 | A navigation result is applied to the indices or to the closed flag, and to nothing else. |
| StoryViewer.Viewer.HandleNextStory | features/view-story/ui/story-viewer.tsx:71-82 | The state follows `Next`. |
| StoryViewer.Viewer.HandlePrevStory | features/view-story/ui/story-viewer.tsx:84-96 | The state follows `Prev`. |
| StoryViewer.Viewer.HandleKey | features/view-story/ui/story-viewer.tsx:119-131 | Escape closes. The right arrow carries out `Next` and the left arrow `Prev` on the old state. Any other key does nothing. |
| StoryViewer.Viewer.CloseIfNothingShown | features/view-story/ui/story-viewer.tsx:42-46 | The viewer closes once no story is shown. |
| StoryViewer.Viewer.HandleDelete | features/view-story/ui/story-viewer.tsx:98-117 | Nothing changes without a shown story, without confirmation or on a throw. Otherwise the groups are replaced and the story index is fixed up by `StoryIndexAfterDelete`. The busy flag is cleared. |
| Storage.Extension | shared/lib/supabase/storage.ts:34-39 | The text after the last dot holds no dot. A name without a dot is its own extension. |
| Storage.UploadFile | shared/lib/supabase/storage.ts:6-29 | The public URL on success. An upload error is thrown with its message. |
| Storage.AvatarPath | shared/lib/supabase/storage.ts:34-39 | The path is `userId/avatar.ext`. |
| Storage.AvatarPathKeepsExtension | shared/lib/supabase/storage.ts:34-39 | The avatar path's extension is the file's extension. |
| Storage.ImageStem | shared/lib/supabase/storage.ts:44-53 | The index can be read back after the last underscore. |
| Storage.SplitAtLastDot | shared/lib/supabase/storage.ts:47 | Splitting `stem.ext` at the last dot gives back the stem, with its last underscore segment intact. |
| Storage.PostImagePathIndex | shared/lib/supabase/storage.ts:47 | The digits between the last underscore and the extension's dot are the image index. |
| Storage.PostImagePaths | shared/lib/supabase/storage.ts:44-53 | One path per file, in file order, each carrying that file's index. |
| Storage.PostImagePathsDistinct | shared/lib/supabase/storage.ts:44-53 | The images of one post never overwrite each other, even when uploaded in the same millisecond. |
| Storage.AllUploaded | shared/lib/supabase/storage.ts:44-53 | Succeeds exactly when every upload succeeded, with their URLs in order. Otherwise it throws the error of some failed upload. |
| Storage.DeleteFile | shared/lib/supabase/storage.ts:58-67 | A remove error is thrown; otherwise the call succeeds. |
| Storage.ListedPaths | shared/lib/supabase/storage.ts:78 | Each listed name is placed under `userId/postId/`. |
| Storage.DeletePostImages | shared/lib/supabase/storage.ts:72-89 | A remove is made exactly when the listing is non-empty, for the listed paths. It throws exactly when that remove fails. |
| Storage.RemovedPathsInFolder | shared/lib/supabase/storage.ts:72-89 | Every removed path lies in the post's folder. |
| UserStore.FallbackUsername | entities/user/model/store.ts:39-41 | Never empty and never holds '@'. It is a prefix of the address, or "user" when the local part is empty or there is no e-mail. |
| UserStore.FallbackUsernameIsLocalPart | entities/user/model/store.ts:39-41 | The username taken from an address is its local part. |
| UserStore.EmptyLocalPartIsUser | entities/user/model/store.ts:39-41 | An address with nothing before the '@' gives "user". |
| UserStore.FallbackProfile | entities/user/model/store.ts:38-42 | The inserted profile has the account id, the fallback username and the metadata full name or "". |
| UserStore.LoadOutcome | entities/user/model/store.ts:16-57 | Signed out, or when the auth call fails: no user and no insert. An existing profile becomes the user. A missing one leads to the fallback insert, and the user is the created row. |
| UserStore.InsertOnlyForMissingProfile | entities/user/model/store.ts:22-46 | An insert is made only for a signed-in account without a profile row, and only with that account's id. |
| UserStore.Store.constructor | entities/user/model/store.ts:15 | The store starts with no user and loading. |
| UserStore.Store.SetCurrentUser | entities/user/model/store.ts:15 | The user is replaced. |
| UserStore.Store.LoadCurrentUser | entities/user/model/store.ts:16-57 | The user and the insert are those of `LoadOutcome`, and loading ends. |
| Constants.ProfileRoute | shared/lib/constants.ts:8 | A slash followed by the username. |
| Constants.PostRoute | shared/lib/constants.ts:9 | `/p/` followed by the id. |
| Constants.ReelRoute | shared/lib/constants.ts:10 | `/r/` followed by the id. |
| Constants.RoutesAreUnambiguous | shared/lib/constants.ts:8-10 | Each builder is injective, and post routes never equal reel routes. |
| Constants.ProfileRoutesAreSeparate | shared/lib/constants.ts:8-10 | A profile route for a username without '/' is never a post or reel route. |
| Toast.Without | shared/ui/toast.tsx:35-38 | No toast with that id remains. Every other toast stays, and nothing new appears. |
| Toast.WithoutCounts | shared/ui/toast.tsx:35-38 | Every toast with another id keeps its number of occurrences. |
| Toast.WithoutAbsentId | shared/ui/toast.tsx:35-38 | Removing an id no toast has changes nothing. |
| Toast.WithoutAppend | shared/ui/toast.tsx:35-38 | Removal keeps the remaining toasts in their relative order. |
| Toast.ExpiryUndoesAdd | shared/ui/toast.tsx:24-38 | When a toast with a fresh id expires, the queue is what it was before it was added. |
| Toast.Queue.constructor | shared/ui/toast.tsx:24-38 | The queue starts empty. |
| Toast.Queue.AddToast | shared/ui/toast.tsx:24-34 | The toast is appended at the end. |
| Toast.Queue.RemoveToast | shared/ui/toast.tsx:35-38 | The queue becomes `Without` of the old queue, both on a click and on the timer. |
| Toast.Queue.ShowSuccess | shared/ui/toast.tsx:84-88 | A success toast is appended. |
| Toast.Queue.ShowError | shared/ui/toast.tsx:84-88 | An error toast is appended. |
| Toast.Queue.ShowInfo | shared/ui/toast.tsx:84-88 | An info toast is appended. |
| Search.SaveSearch | app/search/page.tsx:54-61 | The username comes first and exactly once, followed by the earlier entries without it, in order. At most ten entries are kept. |
| Search.RemoveRecent | app/search/page.tsx:143-146 | The entry is gone and every other entry stays. |
| Search.RemoveRecentCounts | app/search/page.tsx:143-146 | Every other entry keeps its number of occurrences. |
| Search.RemoveRecentAppend | app/search/page.tsx:143-146 | Removal is entry by entry, so the kept entries stay in their order. |
| Search.RemoveAfterSave | app/search/page.tsx:54-61 | Removing what was just saved leaves the earlier entries other than it, capped at nine. |
| Search.SaveSearchIdempotent | app/search/page.tsx:54-61 | Saving the same username again changes nothing. |
| Search.TriggersSearch | app/search/page.tsx:28-34 | A search runs exactly when the query is not blank. |
| Search.SearchResults | app/search/page.tsx:36-52 | Rows replace the results, null data empties them, and an error keeps them. |
| Search.Page.constructor | app/search/page.tsx:28-34 | The page starts empty, with the stored recent searches. |
| Search.Page.SetQuery | app/search/page.tsx:28-52 | The query is stored. A blank query empties the results; otherwise they follow `SearchResults`. |
| Search.Page.Save | app/search/page.tsx:54-61 | The recent list becomes `SaveSearch` of the old list. |
| Search.Page.Remove | app/search/page.tsx:143-146 | The recent list becomes `RemoveRecent` of the old list. |
| Search.Page.ClearRecent | app/search/page.tsx:63-66 | The recent list is emptied. |
| Username.Sanitize | features/auth/ui/register-form.tsx:82 | Only `[a-z0-9._]` characters remain. Every input character whose lower-case form is allowed is kept. The result is never longer than the input. |
| Username.UppercaseIsLowered | features/auth/ui/register-form.tsx:82 | An upper-case letter is kept as its lower-case form and never as itself. |
| Username.SanitizeKeepsAllowed | features/auth/ui/register-form.tsx:82 | An already valid username is returned unchanged. |
| Username.SanitizeIdempotent | features/auth/ui/register-form.tsx:82 | Filtering twice equals filtering once. |
| Username.SanitizeCounts | features/auth/ui/register-form.tsx:82 | Each allowed character occurs as often as in the lower-cased input; every other character is gone. |
| Username.SanitizeAppend | features/auth/ui/register-form.tsx:82 | The filter works character by character: the filter of a concatenation is the concatenation of the filters. |
| Register.OutcomeToast | features/auth/ui/register-form.tsx:33-45 | A success gives the success toast. A throw gives an error toast with its message, or the default text when the message is empty. A sign-up returning false shows nothing. |
| Register.Form.constructor | features/auth/ui/register-form.tsx:17-49 | The form starts empty. |
| Register.Form.SetUsername | features/auth/ui/register-form.tsx:82 | The field holds the sanitised input. |
| Register.Form.HandleRegister | features/auth/ui/register-form.tsx:17-49 | It redirects exactly on success. The toast of `OutcomeToast` is appended, and loading ends. |
| EditProfile.InitialForm | features/profile/ui/edit-profile-modal.tsx:33-43 | Each field comes from the profile, with "" for a null or empty column. |
| EditProfile.CacheBustedUrl | features/profile/ui/edit-profile-modal.tsx:67 | The public URL with a `t` parameter holding the clock reading. `CacheBustedUrlPrefix`, `CacheBustedUrlValue` and `CacheBustedUrlsDiffer` state what it guarantees. |
| EditProfile.CacheBustedUrlPrefix | features/profile/ui/edit-profile-modal.tsx:63-73 | The saved URL starts with the public URL and `?t=`. |
| EditProfile.CacheBustedUrlValue | features/profile/ui/edit-profile-modal.tsx:63-73 | The `t` parameter's value, after the last `=`, is the clock reading. |
| EditProfile.CacheBustedUrlsDiffer | features/profile/ui/edit-profile-modal.tsx:63-73 | Uploads at different times are saved under different URLs, so browsers do not show a stale avatar. |
| EditProfile.SavedAvatarUrl | features/profile/ui/edit-profile-modal.tsx:63-73 | Without a new file the current URL is kept. Otherwise the cache-busted upload URL is used. |
| EditProfile.Submit | features/profile/ui/edit-profile-modal.tsx:57-83 | A failed avatar upload asks for no update. Otherwise the form is sent with the right avatar URL. Success is reported exactly when the update succeeds. |
| EditProfile.Modal.constructor | features/profile/ui/edit-profile-modal.tsx:33-43 | The modal starts with an empty form and no pending file. |
| EditProfile.Modal.Sync | features/profile/ui/edit-profile-modal.tsx:33-43 | When it is open with a user, the form and the preview are filled from the profile. Otherwise they are kept. |
| EditProfile.Modal.ChooseAvatar | features/profile/ui/edit-profile-modal.tsx:45-55 | A chosen file replaces the pending one. No choice keeps it. |
| EditProfile.Modal.SetUsername | features/profile/ui/edit-profile-modal.tsx:187-193 | Only the username field changes, and it holds the sanitised input. |
| EditProfile.Modal.HandleSubmit | features/profile/ui/edit-profile-modal.tsx:57-83 | Without a user nothing happens. Otherwise the request and the success flag are those of `Submit`. |
| PostCard.IsCarousel | entities/post/ui/post-card.tsx:49-50 | A post is shown as a carousel only when its media type is carousel and it has more than one image. |
| PostCard.HasPrev | entities/post/ui/post-card.tsx:202-208 | The left arrow is shown on a carousel past its first image. |
| PostCard.HasNext | entities/post/ui/post-card.tsx:210-216 | The right arrow is shown on a carousel before its last image. |
| PostCard.Step | entities/post/ui/post-card.tsx:202-217 | An arrow moves one image in its direction only when it is shown. Otherwise the position stays. |
| PostCard.StepStaysInRange | entities/post/ui/post-card.tsx:202-217 | From a valid position the arrows never leave the post's images. |
| PostCard.NextThenPrevReturns | entities/post/ui/post-card.tsx:202-217 | Right and then left returns to the same image. |
| PostCard.MenuItems | entities/post/ui/post-card.tsx:122-150 | The author gets delete and edit. Everyone else gets report. Copy-link and cancel are always there. |
| PostCard.Merge | entities/post/ui/post-card.tsx:316 | Each field the update carries replaces the card's. The others are kept, and the id and the author never change. |
| PostCard.MergeIdempotent | entities/post/ui/post-card.tsx:316 | Merging the same update twice equals merging it once. |
| PostCard.CaptionEditKeepsMedia | entities/post/ui/post-card.tsx:316 | A caption-and-location update keeps the media, the counts and a valid image position. |
| PostCard.Card.constructor | entities/post/ui/post-card.tsx:44 | The card shows the given post at its first image with no menu open. |
| PostCard.Card.Menu | entities/post/ui/post-card.tsx:122-150 | Delete is offered exactly to the post's author. |
| PostCard.Card.Prev | entities/post/ui/post-card.tsx:202-208 | The position moves one image back and stays valid. |
| PostCard.Card.Next | entities/post/ui/post-card.tsx:210-217 | The position moves one image forward and stays valid. |
| PostCard.Card.OpenEdit | entities/post/ui/post-card.tsx:122-150 | The editor opens and the menu closes. |
| PostCard.Card.OnUpdate | entities/post/ui/post-card.tsx:316 | The shown post becomes `Merge` of the old post. |
| PostCard.Card.HandleDelete | entities/post/ui/post-card.tsx:52-63 | The card disappears exactly after a confirmed and successful delete. |
| CreateStory.MediaTypeOf | features/create-story/ui/create-story-modal.tsx:46 | "video" exactly for MIME types that start with "video". |
| CreateStory.AcceptedTypesClassified | features/create-story/ui/create-story-modal.tsx:46 | Every accepted video type is stored as a video, and every accepted image type as an image. |
| CreateStory.Modal.constructor | features/create-story/ui/create-story-modal.tsx:27-38 | The dialog starts with no file. |
| CreateStory.Modal.OnFileChange | features/create-story/ui/create-story-modal.tsx:27-32 | A chosen file and its preview replace the old ones. No choice keeps them. |
| CreateStory.Modal.HandleClose | features/create-story/ui/create-story-modal.tsx:34-38 | The file and the preview are cleared, and `onClose` runs once. |
| CreateStory.Modal.HandleCreateStory | features/create-story/ui/create-story-modal.tsx:40-62 | A request is made exactly with a user and a file, with the classified media type. A created story is delivered and the dialog closes. Otherwise the file stays. |
| CreatePost.MediaTypeFor | features/create-post/ui/create-post-modal.tsx:52 | "carousel" exactly for more than one file, and never "video". |
| CreatePost.ErrorText | features/create-post/ui/create-post-modal.tsx:56-58 | The error's message, or the non-empty default text. |
| CreatePost.Submit | features/create-post/ui/create-post-modal.tsx:33-62 | The post is created only after every upload succeeded, with the uploaded URLs. The error text is empty exactly when both steps succeed. |
| CreatePost.DialogNeverMakesCarousels | features/create-post/ui/create-post-modal.tsx:22-31 | With at most one file, the post is an image post. |
| CreatePost.Modal.constructor | features/create-post/ui/create-post-modal.tsx:22-31 | The dialog starts empty. |
| CreatePost.Modal.HandleFileChange | features/create-post/ui/create-post-modal.tsx:22-31 | Only the first chosen file is kept, so the dialog never holds more than one. |
| CreatePost.Modal.HandleClose | features/create-post/ui/create-post-modal.tsx:64-71 | Every field is emptied, and `onClose` runs once. |
| CreatePost.Modal.HandleSubmit | features/create-post/ui/create-post-modal.tsx:33-62 | Nothing happens without a user or a file. Otherwise the request and the error follow `Submit`, and a success closes the dialog. |
| EditPost.FieldFrom | features/create-post/ui/edit-post-modal.tsx:23-32 | A non-empty column value, or "" for null or "". |
| EditPost.PayloadPatch | features/create-post/ui/edit-post-modal.tsx:38-46 | The patch for a returned row that carries only the caption and the location: those two are set to what was sent, every other field is left as it was. |
| EditPost.ReopenShowsSavedFields | features/create-post/ui/edit-post-modal.tsx:23-46 | When the returned row carries only the caption and the location, reopening the editor on the updated post shows the saved fields, and nothing else on the card changes. |
| EditPost.SaveUnchangedKeepsFields | features/create-post/ui/edit-post-modal.tsx:23-46 | Saving the fields as they were opened keeps their displayed values. |
| EditPost.Modal.constructor | features/create-post/ui/edit-post-modal.tsx:23-32 | The fields start from the post. |
| EditPost.Modal.Sync | features/create-post/ui/edit-post-modal.tsx:23-32 | Opening fills the fields from the post. |
| EditPost.Modal.HandleSubmit | features/create-post/ui/edit-post-modal.tsx:34-47 | The payload is the fields. A returned row is delivered and the editor closes. A throw keeps it open. Loading ends. |

## Left out

- Every async handler is modelled as one atomic step, with each awaited reply given as a parameter. Interleavings across an `await` are not modelled, such as search replies arriving out of order or a second click while a like is in flight.
- The realtime channel's subscribe and unsubscribe lifecycle is not modelled. A delivered insert is an `OnRealtimeInsert` call.
- Timers are left out: the story auto-advance tick and the toast expiry delay. The delay is modelled by `AutoAdvanceMs`, and the expiry by `RemoveToast`.
- The IntersectionObserver that loads the next feed page is left out. Each load is a `LoadPosts` call.
- localStorage reads and writes of recent searches are left out. The stored list is a constructor parameter.
- `FileReader`, `URL.createObjectURL`, the clipboard, `confirm`/`alert`, `scrollIntoView` and console logging are left out. Their results are parameters, or they have no modelled effect.
- Database-side ordering, filters, `ilike` matching, `.limit` and `.range` are left out. Each query's rows are a parameter.
- `toLowerCase` is modelled on ASCII only. A non-ASCII letter that lowers to an ASCII one, such as the Kelvin sign, is not lowered.
- `updatePost` is not part of this model. The row it returns is a parameter of `EditPost.Modal.HandleSubmit`.
- EditPost.PayloadPatch, EditPost.ReopenShowsSavedFields: the row `updatePost` returns is taken to carry only the caption and the location. A full returned post carries its other columns too, and spreading them over the card would replace the counts and flags the card computed; that case is not modelled.
- `getPostById` and the profile and settings pages are not part of this model.
- Storage.AllUploaded: which failing upload's error `Promise.all` throws depends on timing. The model only promises that it is the error of some failed upload.
- Storage.PostImagePaths: each file's `Date.now()` reading is a given number.
- Post likes and reel likes share one `likes` table in the database. The model gives each its own table, since no query mixes the two.
