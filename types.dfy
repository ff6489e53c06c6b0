/** The records the components pass around (shared/types/index.ts), reduced
    to the fields some rule of the model reads or writes. Optional `?:`
    booleans that the fetch code always fills are plain `bool`s here, with
    `undefined` read as `false`, as the components read them. */
module Types {
  import opened Common

  datatype Profile = Profile(
    id: string,
    username: string,
    fullName: Option<string>,
    bio: Option<string>,
    avatarUrl: Option<string>,
    website: Option<string>)

  datatype PostMedia = ImagePost | VideoPost | CarouselPost

  datatype Post = Post(
    id: string,
    userId: string,
    user: Option<Profile>,
    caption: Option<string>,
    mediaUrls: seq<string>,
    mediaType: PostMedia,
    location: Option<string>,
    likesCount: int,
    commentsCount: int,
    isLiked: bool,
    isSaved: bool)

  datatype Reel = Reel(
    id: string,
    userId: string,
    videoUrl: string,
    likesCount: int,
    commentsCount: int,
    isLiked: bool)

  datatype StoryMedia = ImageStory | VideoStory

  datatype Story = Story(
    id: string,
    userId: string,
    user: Option<Profile>,
    mediaUrl: string,
    mediaType: StoryMedia,
    duration: int,
    isViewed: bool)

  datatype Message = Message(
    id: string,
    conversationId: string,
    senderId: string,
    sender: Option<Profile>,
    content: Option<string>,
    createdAt: string)

  datatype Conversation = Conversation(
    id: string,
    name: Option<string>,
    avatarUrl: Option<string>,
    lastMessage: Option<Message>)

  /** The notification type column; the application writes one of
      "like", "comment", "follow", "mention" and "message", but rows are read
      back as plain text. */
  type NotificationKind = string

  datatype Notification = Notification(
    id: string,
    userId: string,
    actorId: Option<string>,
    actor: Option<Profile>,
    kind: NotificationKind,
    postId: Option<string>,
    reelId: Option<string>,
    commentId: Option<string>,
    isRead: bool)

  /** A row the application asks the notifications table to insert. */
  datatype NewNotification = NewNotification(
    userId: string,
    actorId: Option<string>,
    kind: NotificationKind,
    postId: Option<string>,
    reelId: Option<string>,
    commentId: Option<string>)

  /** A file picked in the browser: its name and MIME type. */
  datatype File = File(name: string, mimeType: string)
}
