/** The full-screen story viewer (features/view-story/ui/story-viewer.tsx):
    a pair of indices, the active user group and the active story inside it,
    moved by "next", "previous" and "delete", and clamped when read. */
module StoryViewer {
  import opened Common
  import opened Types

  /** One user's stories, as the stories bar hands them to the viewer. */
  datatype UserStoriesGroup = UserStoriesGroup(user: Profile, stories: seq<Story>)

  /** What a navigation handler does: nothing (no group on screen), move to
      a pair of indices, or call `onClose`. */
  datatype Nav = Stay | MoveTo(userIndex: int, storyIndex: int) | Close

  function Min(a: int, b: int): (r: int)
    ensures r <= a && r <= b && (r == a || r == b)
  {
    if a <= b then a else b
  }

  /** `Math.min(activeUserIndex, groups.length - 1)`. */
  function SafeUserIndex(groups: seq<UserStoriesGroup>, userIndex: int): int {
    Min(userIndex, |groups| - 1)
  }

  /** `groups[SafeUserIndex]`, undefined when that index is outside the list. */
  function CurrentGroup(groups: seq<UserStoriesGroup>, userIndex: int): (r: Option<UserStoriesGroup>)
    ensures r.Some? <==> |groups| > 0 && userIndex >= 0
    ensures r.Some? ==> r.value == groups[SafeUserIndex(groups, userIndex)]
  {
    var g := SafeUserIndex(groups, userIndex);
    if 0 <= g < |groups| then Some(groups[g]) else None
  }

  /** The story on screen: the story index is clamped to the last story of the
      displayed group, so the viewer never reads past the end of either list. */
  function CurrentStory(groups: seq<UserStoriesGroup>, userIndex: int, storyIndex: int): (r: Option<Story>)
    ensures r.Some? ==>
      var g := SafeUserIndex(groups, userIndex);
      0 <= g < |groups| &&
      var k := Min(storyIndex, |groups[g].stories| - 1);
      0 <= k < |groups[g].stories| && r.value == groups[g].stories[k]
    ensures r.None? <==>
      CurrentGroup(groups, userIndex).None? || storyIndex < 0 || CurrentGroup(groups, userIndex).value.stories == []
  {
    match CurrentGroup(groups, userIndex)
    case None => None
    case Some(group) =>
      var k := Min(storyIndex, |group.stories| - 1);
      if 0 <= k < |group.stories| then Some(group.stories[k]) else None
  }

  /** Every group the stories bar builds holds at least one story. */
  predicate AllNonEmpty(groups: seq<UserStoriesGroup>) {
    forall g :: 0 <= g < |groups| ==> groups[g].stories != []
  }

  /** The indices point at an existing story without any clamping. */
  predicate InBounds(groups: seq<UserStoriesGroup>, userIndex: int, storyIndex: int) {
    0 <= userIndex < |groups| && 0 <= storyIndex < |groups[userIndex].stories|
  }

  /** A viewer opened on a non-empty list of non-empty groups at non-negative
      indices always shows a story. */
  lemma NonEmptyViewerShowsStory(groups: seq<UserStoriesGroup>, userIndex: int, storyIndex: int)
    requires |groups| > 0 && AllNonEmpty(groups) && userIndex >= 0 && storyIndex >= 0
    ensures CurrentStory(groups, userIndex, storyIndex).Some?
  {
    assert groups[SafeUserIndex(groups, userIndex)].stories != [];
  }

  /** `handleNextStory`: the next story of the group, else the first story of
      the next group, else close. The comparisons use the unclamped indices. */
  function Next(groups: seq<UserStoriesGroup>, userIndex: int, storyIndex: int): (r: Nav)
    ensures CurrentGroup(groups, userIndex).None? <==> r.Stay?
    ensures CurrentGroup(groups, userIndex).Some? && storyIndex < |CurrentGroup(groups, userIndex).value.stories| - 1 ==>
      r == MoveTo(userIndex, storyIndex + 1)
    ensures CurrentGroup(groups, userIndex).Some? && storyIndex >= |CurrentGroup(groups, userIndex).value.stories| - 1 ==>
      r == if userIndex < |groups| - 1 then MoveTo(userIndex + 1, 0) else Close
    ensures InBounds(groups, userIndex, storyIndex) ==>
      (r.Close? <==> userIndex == |groups| - 1 && storyIndex == |groups[userIndex].stories| - 1)
    ensures InBounds(groups, userIndex, storyIndex) && AllNonEmpty(groups) && r.MoveTo? ==>
      InBounds(groups, r.userIndex, r.storyIndex)
  {
    match CurrentGroup(groups, userIndex)
    case None => Stay
    case Some(group) =>
      if storyIndex < |group.stories| - 1 then MoveTo(userIndex, storyIndex + 1)
      else if userIndex < |groups| - 1 then MoveTo(userIndex + 1, 0)
      else Close
  }

  /** `handlePrevStory`: the previous story of the group, else the last story
      of the previous group, else close. If the previous group no longer
      exists (the list shrank under the viewer), reading its stories throws
      after the group index was already set, so only that index moves. */
  function Prev(groups: seq<UserStoriesGroup>, userIndex: int, storyIndex: int): (r: Nav)
    ensures CurrentGroup(groups, userIndex).None? <==> r.Stay?
    ensures CurrentGroup(groups, userIndex).Some? && storyIndex > 0 ==> r == MoveTo(userIndex, storyIndex - 1)
    ensures CurrentGroup(groups, userIndex).Some? && storyIndex <= 0 && 0 < userIndex <= |groups| ==>
      r == MoveTo(userIndex - 1, |groups[userIndex - 1].stories| - 1)
    ensures CurrentGroup(groups, userIndex).Some? && storyIndex <= 0 && userIndex > |groups| ==>
      r == MoveTo(userIndex - 1, storyIndex)
    ensures CurrentGroup(groups, userIndex).Some? ==> (r.Close? <==> storyIndex <= 0 && userIndex <= 0)
    ensures InBounds(groups, userIndex, storyIndex) && AllNonEmpty(groups) && r.MoveTo? ==>
      InBounds(groups, r.userIndex, r.storyIndex)
  {
    match CurrentGroup(groups, userIndex)
    case None => Stay
    case Some(_) =>
      if storyIndex > 0 then MoveTo(userIndex, storyIndex - 1)
      else if userIndex > 0 then
        var prevIndex := userIndex - 1;
        if prevIndex < |groups| then MoveTo(prevIndex, |groups[prevIndex].stories| - 1)
        else MoveTo(prevIndex, storyIndex)
      else Close
  }

  /** "Previous" undoes every "next" that moves. */
  lemma PrevUndoesNext(groups: seq<UserStoriesGroup>, userIndex: int, storyIndex: int)
    requires InBounds(groups, userIndex, storyIndex) && AllNonEmpty(groups)
    requires Next(groups, userIndex, storyIndex).MoveTo?
    ensures
      var n := Next(groups, userIndex, storyIndex);
      Prev(groups, n.userIndex, n.storyIndex) == MoveTo(userIndex, storyIndex)
  {
    var n := Next(groups, userIndex, storyIndex);
    assert InBounds(groups, n.userIndex, n.storyIndex);
    assert CurrentGroup(groups, n.userIndex).Some?;
  }

  /** "Next" undoes every "previous" that moves. */
  lemma NextUndoesPrev(groups: seq<UserStoriesGroup>, userIndex: int, storyIndex: int)
    requires InBounds(groups, userIndex, storyIndex) && AllNonEmpty(groups)
    requires Prev(groups, userIndex, storyIndex).MoveTo?
    ensures
      var p := Prev(groups, userIndex, storyIndex);
      Next(groups, p.userIndex, p.storyIndex) == MoveTo(userIndex, storyIndex)
  {
    var p := Prev(groups, userIndex, storyIndex);
    assert InBounds(groups, p.userIndex, p.storyIndex);
    assert CurrentGroup(groups, p.userIndex) == Some(groups[p.userIndex]);
  }

  /** The index fix-up after a successful delete, measured against the length
      of the group as it was before the delete: step back only from the last
      position, and never below 0. */
  function StoryIndexAfterDelete(oldGroupLength: int, storyIndex: int): (r: int)
    ensures r == storyIndex || (r == storyIndex - 1 && storyIndex > 0 && storyIndex >= oldGroupLength - 1)
    ensures storyIndex > 0 && storyIndex >= oldGroupLength - 1 ==> r == storyIndex - 1
    ensures storyIndex >= 0 ==> r >= 0
    ensures 0 <= storyIndex < oldGroupLength && oldGroupLength >= 2 ==> r < oldGroupLength - 1
  {
    if storyIndex >= oldGroupLength - 1 && storyIndex > 0 then storyIndex - 1 else storyIndex
  }

  /** The story whose view is recorded when it comes on screen: only a story
      not yet viewed, and only for a signed-in user. */
  function StoryToMarkViewed(current: Option<Story>, currentUser: Option<Profile>): (r: Option<string>)
    ensures r.Some? <==> current.Some? && currentUser.Some? && !current.value.isViewed
    ensures r.Some? ==> r.value == current.value.id
  {
    if current.Some? && currentUser.Some? && !current.value.isViewed then Some(current.value.id) else None
  }

  /** Delay before an image story advances by itself: `(duration || 5)`
      seconds; videos advance when they end instead. */
  function AutoAdvanceMs(story: Story): (r: Option<int>)
    ensures story.mediaType.VideoStory? <==> r.None?
    ensures r.Some? && story.duration == 0 ==> r.value == 5000
    ensures r.Some? && story.duration != 0 ==> r.value == story.duration * 1000
  {
    if story.mediaType.VideoStory? then None
    else Some((if story.duration == 0 then 5 else story.duration) * 1000)
  }

  /** The delete button is shown only to the owner of the displayed group. */
  predicate IsOwner(currentUser: Option<Profile>, group: UserStoriesGroup) {
    currentUser.Some? && group.user.id == currentUser.value.id
  }

  /** The indices and the closed flag after a navigation result is carried
      out, given those before it. */
  predicate Carried(nav: Nav, user0: int, story0: int, closed0: bool, user: int, story: int, closed: bool) {
    match nav
    case Stay => user == user0 && story == story0 && closed == closed0
    case MoveTo(u, s) => user == u && story == s && closed == closed0
    case Close => user == user0 && story == story0 && closed
  }

  /** The viewer's state: the groups it was given and the two indices. */
  class Viewer {
    var groups: seq<UserStoriesGroup>
    var activeUserIndex: int
    var activeStoryIndex: int
    var isDeleting: bool
    /** Set once the viewer has called `onClose`. */
    var closed: bool

    constructor (initialGroupIndex: int, groups: seq<UserStoriesGroup>)
      ensures this.groups == groups
      ensures activeUserIndex == initialGroupIndex && activeStoryIndex == 0
      ensures !isDeleting && !closed
    {
      this.groups := groups;
      activeUserIndex := initialGroupIndex;
      activeStoryIndex := 0;
      isDeleting := false;
      closed := false;
    }

    function Shown(): Option<Story>
      reads this
    {
      CurrentStory(groups, activeUserIndex, activeStoryIndex)
    }

    method Apply(nav: Nav)
      modifies this
      ensures groups == old(groups) && isDeleting == old(isDeleting)
      ensures Carried(nav, old(activeUserIndex), old(activeStoryIndex), old(closed), activeUserIndex, activeStoryIndex, closed)
    {
      match nav
      case Stay =>
      case MoveTo(u, s) =>
        activeUserIndex, activeStoryIndex := u, s;
      case Close =>
        closed := true;
    }

    method HandleNextStory()
      modifies this
      ensures groups == old(groups) && isDeleting == old(isDeleting)
      ensures Carried(Next(old(groups), old(activeUserIndex), old(activeStoryIndex)),
        old(activeUserIndex), old(activeStoryIndex), old(closed), activeUserIndex, activeStoryIndex, closed)
    {
      Apply(Next(groups, activeUserIndex, activeStoryIndex));
    }

    method HandlePrevStory()
      modifies this
      ensures groups == old(groups) && isDeleting == old(isDeleting)
      ensures Carried(Prev(old(groups), old(activeUserIndex), old(activeStoryIndex)),
        old(activeUserIndex), old(activeStoryIndex), old(closed), activeUserIndex, activeStoryIndex, closed)
    {
      Apply(Prev(groups, activeUserIndex, activeStoryIndex));
    }

    /** The key handler: Escape closes, the arrow keys navigate. */
    method HandleKey(key: string)
      modifies this
      ensures groups == old(groups) && isDeleting == old(isDeleting)
      ensures key == "Escape" ==> closed && activeUserIndex == old(activeUserIndex) && activeStoryIndex == old(activeStoryIndex)
      ensures key == "ArrowRight" ==>
        Carried(Next(old(groups), old(activeUserIndex), old(activeStoryIndex)),
          old(activeUserIndex), old(activeStoryIndex), old(closed), activeUserIndex, activeStoryIndex, closed)
      ensures key == "ArrowLeft" ==>
        Carried(Prev(old(groups), old(activeUserIndex), old(activeStoryIndex)),
          old(activeUserIndex), old(activeStoryIndex), old(closed), activeUserIndex, activeStoryIndex, closed)
      ensures key != "Escape" && key != "ArrowRight" && key != "ArrowLeft" ==>
        activeUserIndex == old(activeUserIndex) && activeStoryIndex == old(activeStoryIndex) && closed == old(closed)
    {
      if key == "Escape" {
        closed := true;
      } else if key == "ArrowRight" {
        HandleNextStory();
      } else if key == "ArrowLeft" {
        HandlePrevStory();
      }
    }

    /** The effect that closes the viewer once no story is on screen. */
    method CloseIfNothingShown()
      modifies this`closed
      ensures closed == (old(closed) || Shown().None?)
    {
      if Shown().None? {
        closed := true;
      }
    }

    /** `handleDelete`. `confirmed` is the answer to the confirmation prompt;
        `deleted` is what `onDeleteStory` did: it throws, or it succeeds and
        the parent re-renders the viewer with the regrouped stories. */
    method HandleDelete(confirmed: bool, deleted: Result<seq<UserStoriesGroup>>)
      modifies this
      ensures activeUserIndex == old(activeUserIndex)
      ensures old(Shown()).None? || !confirmed ==> isDeleting == old(isDeleting)
      ensures old(Shown()).Some? && confirmed ==> !isDeleting
      ensures old(Shown()).None? || !confirmed || deleted.Err? ==>
        groups == old(groups) && activeStoryIndex == old(activeStoryIndex) && closed == old(closed)
      ensures old(Shown()).Some? && confirmed && deleted.Ok? ==>
        groups == deleted.value
        && activeStoryIndex == StoryIndexAfterDelete(
             |old(CurrentGroup(groups, activeUserIndex)).value.stories|, old(activeStoryIndex))
        && closed == (old(closed) || Shown().None?)
    {
      if Shown().None? || !confirmed {
        return;
      }
      var groupLength := |CurrentGroup(groups, activeUserIndex).value.stories|;
      isDeleting := true;
      match deleted {
        case Err(_) =>
        case Ok(regrouped) =>
          groups := regrouped;
          activeStoryIndex := StoryIndexAfterDelete(groupLength, activeStoryIndex);
          CloseIfNothingShown();
      }
      isDeleting := false;
    }
  }
}
