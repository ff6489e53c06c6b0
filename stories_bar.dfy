/** The stories bar above the feed (widgets/stories/ui/stories-bar.tsx): the
    fetched stories grouped by author in first-seen order, the signed-in
    user's group moved to the front, and the list updates made when a story
    is viewed, created or deleted. */
module StoriesBar {
  import opened Common
  import opened Types
  import opened StoryViewer

  /** The story was written by the user with this id (stories whose profile
      join came back empty have no user). */
  predicate ByUser(story: Story, id: string) {
    story.user.Some? && story.user.value.id == id
  }

  function ByUserTest(id: string): Story -> bool {
    (s: Story) => ByUser(s, id)
  }

  /** The feed's stories by one user, in feed order. */
  function StoriesOf(stories: seq<Story>, id: string): seq<Story> {
    Filter(ByUserTest(id), stories)
  }

  /** Position of the first story by a user, or -1. */
  function FirstStoryOf(stories: seq<Story>, id: string): (r: int)
    ensures -1 <= r < |stories|
    ensures r >= 0 ==> ByUser(stories[r], id) && forall i :: 0 <= i < r ==> !ByUser(stories[i], id)
    ensures r == -1 <==> forall i :: 0 <= i < |stories| ==> !ByUser(stories[i], id)
  {
    if stories == [] then -1
    else if ByUser(stories[0], id) then 0
    else var r := FirstStoryOf(stories[1..], id); if r == -1 then -1 else r + 1
  }

  /** The user ids of the groups, in order. */
  function Keys(groups: seq<UserStoriesGroup>): (r: seq<string>)
    ensures |r| == |groups| && forall k :: 0 <= k < |groups| ==> r[k] == groups[k].user.id
  {
    seq(|groups|, k requires 0 <= k < |groups| => groups[k].user.id)
  }

  /** `groups.findIndex(g => g.user.id === id)`. */
  function GroupIndex(groups: seq<UserStoriesGroup>, id: string): int {
    IndexOf(Keys(groups), id)
  }

  /** One turn of the grouping loop: a story without a user is skipped, a
      story whose user already has a group is pushed onto that group, and
      any other story opens a new group at the end, under its own profile. */
  function AddStory(groups: seq<UserStoriesGroup>, story: Story): seq<UserStoriesGroup> {
    if story.user.None? then groups
    else
      var j := GroupIndex(groups, story.user.value.id);
      if j >= 0 then groups[j := groups[j].(stories := groups[j].stories + [story])]
      else groups + [UserStoriesGroup(story.user.value, [story])]
  }

  /** The groups the loop has built after the given stories. */
  function Grouped(stories: seq<Story>): seq<UserStoriesGroup> {
    if stories == [] then [] else AddStory(Grouped(stories[..|stories| - 1]), stories[|stories| - 1])
  }

  /** Each group holds exactly its user's stories, in feed order, under the
      profile of the first of them. */
  ghost predicate HoldsOwnStories(groups: seq<UserStoriesGroup>, stories: seq<Story>) {
    forall k :: 0 <= k < |groups| ==>
      groups[k].stories == StoriesOf(stories, groups[k].user.id)
      && groups[k].stories != []
      && groups[k].stories[0].user == Some(groups[k].user)
  }

  /** No user has two groups. */
  predicate DistinctUsers(groups: seq<UserStoriesGroup>) {
    forall k, l :: 0 <= k < l < |groups| ==> groups[k].user.id != groups[l].user.id
  }

  /** Every story that has a user is in some group. */
  predicate CoversFeed(groups: seq<UserStoriesGroup>, stories: seq<Story>) {
    forall i :: 0 <= i < |stories| && stories[i].user.Some? ==>
      GroupIndex(groups, stories[i].user.value.id) >= 0
  }

  /** Groups come in the order of each user's first story in the feed. */
  predicate OrderedByFirstStory(groups: seq<UserStoriesGroup>, stories: seq<Story>) {
    forall k, l :: 0 <= k < l < |groups| ==>
      FirstStoryOf(stories, groups[k].user.id) < FirstStoryOf(stories, groups[l].user.id)
  }

  /** What grouping promises. */
  ghost predicate IsGrouping(groups: seq<UserStoriesGroup>, stories: seq<Story>) {
    HoldsOwnStories(groups, stories) && DistinctUsers(groups)
    && CoversFeed(groups, stories) && OrderedByFirstStory(groups, stories)
  }

  lemma StoriesOfSnoc(p: seq<Story>, x: Story, id: string)
    ensures StoriesOf(p + [x], id) == StoriesOf(p, id) + (if ByUser(x, id) then [x] else [])
  {
    FilterAppend(ByUserTest(id), p, [x]);
    assert [x][1..] == [];
  }

  lemma FirstStoryOfSnoc(p: seq<Story>, x: Story, id: string)
    ensures FirstStoryOf(p, id) >= 0 ==> FirstStoryOf(p + [x], id) == FirstStoryOf(p, id)
    ensures FirstStoryOf(p, id) == -1 && ByUser(x, id) ==> FirstStoryOf(p + [x], id) == |p|
  {
    var t := p + [x];
    var a, b := FirstStoryOf(p, id), FirstStoryOf(t, id);
    if a >= 0 {
      assert t[a] == p[a];
      assert b <= a;
      assert b >= 0 && t[b] == p[b];
    } else if ByUser(x, id) {
      assert t[|p|] == x;
      assert b >= 0;
    }
  }

  lemma {:induction false} NoStoriesOf(stories: seq<Story>, id: string)
    requires forall i :: 0 <= i < |stories| ==> !ByUser(stories[i], id)
    ensures StoriesOf(stories, id) == []
  {
    if stories != [] {
      NoStoriesOf(stories[1..], id);
    }
  }

  /** A group's first story keeps its place when a story is appended. */
  lemma FirstStoryOfGroup(p: seq<Story>, x: Story, groups: seq<UserStoriesGroup>, k: int)
    requires HoldsOwnStories(groups, p) && 0 <= k < |groups|
    ensures FirstStoryOf(p + [x], groups[k].user.id) == FirstStoryOf(p, groups[k].user.id) >= 0
  {
    assert groups[k].stories[0] in p && ByUser(groups[k].stories[0], groups[k].user.id);
    FirstStoryOfSnoc(p, x, groups[k].user.id);
  }

  /** Appending a story nobody's group is waiting for keeps the order. */
  lemma OrderedAfterSnoc(p: seq<Story>, x: Story, groups: seq<UserStoriesGroup>)
    requires HoldsOwnStories(groups, p) && OrderedByFirstStory(groups, p)
    ensures OrderedByFirstStory(groups, p + [x])
  {
    forall k, l | 0 <= k < l < |groups|
      ensures FirstStoryOf(p + [x], groups[k].user.id) < FirstStoryOf(p + [x], groups[l].user.id)
    {
      FirstStoryOfGroup(p, x, groups, k);
      FirstStoryOfGroup(p, x, groups, l);
    }
  }

  /** Case of a story without a user: the groups stay as they are. */
  lemma AddWithoutUser(p: seq<Story>, x: Story, groups: seq<UserStoriesGroup>)
    requires IsGrouping(groups, p) && x.user.None?
    ensures IsGrouping(AddStory(groups, x), p + [x])
  {
    var t := p + [x];
    forall k | 0 <= k < |groups|
      ensures groups[k].stories == StoriesOf(t, groups[k].user.id)
    {
      StoriesOfSnoc(p, x, groups[k].user.id);
    }
    OrderedAfterSnoc(p, x, groups);
    forall i | 0 <= i < |t| && t[i].user.Some?
      ensures GroupIndex(groups, t[i].user.value.id) >= 0
    {
      assert t[i] == p[i];
    }
  }

  /** Pushing onto an existing group keeps every group's user and
      position. */
  lemma PushKeepsUsers(groups: seq<UserStoriesGroup>, x: Story)
    requires x.user.Some? && GroupIndex(groups, x.user.value.id) >= 0
    ensures |AddStory(groups, x)| == |groups|
    ensures forall k :: 0 <= k < |groups| ==> AddStory(groups, x)[k].user == groups[k].user
    ensures Keys(AddStory(groups, x)) == Keys(groups)
    ensures forall id :: GroupIndex(AddStory(groups, x), id) == GroupIndex(groups, id)
  {
    var g := AddStory(groups, x);
    assert forall k :: 0 <= k < |groups| ==> g[k].user == groups[k].user;
    assert Keys(g) == Keys(groups);
  }

  lemma PushHoldsOwnStories(p: seq<Story>, x: Story, groups: seq<UserStoriesGroup>)
    requires HoldsOwnStories(groups, p) && DistinctUsers(groups)
    requires x.user.Some? && GroupIndex(groups, x.user.value.id) >= 0
    ensures HoldsOwnStories(AddStory(groups, x), p + [x])
  {
    var t := p + [x];
    var j := GroupIndex(groups, x.user.value.id);
    var g := AddStory(groups, x);
    PushKeepsUsers(groups, x);
    assert Keys(groups)[j] == x.user.value.id;
    forall k | 0 <= k < |g|
      ensures g[k].stories == StoriesOf(t, g[k].user.id)
      ensures g[k].stories != [] && g[k].stories[0].user == Some(g[k].user)
    {
      StoriesOfSnoc(p, x, g[k].user.id);
      if k != j {
        assert g[k] == groups[k];
      } else {
        assert g[k].stories[0] == groups[k].stories[0];
      }
    }
  }

  /** Case of a story whose user already has a group. */
  lemma AddToExisting(p: seq<Story>, x: Story, groups: seq<UserStoriesGroup>)
    requires IsGrouping(groups, p)
    requires x.user.Some? && GroupIndex(groups, x.user.value.id) >= 0
    ensures IsGrouping(AddStory(groups, x), p + [x])
  {
    var t := p + [x];
    var g := AddStory(groups, x);
    PushKeepsUsers(groups, x);
    PushHoldsOwnStories(p, x, groups);
    forall i | 0 <= i < |t| && t[i].user.Some?
      ensures GroupIndex(g, t[i].user.value.id) >= 0
    {
      if i < |p| { assert t[i] == p[i]; }
    }
    OrderedAfterSnoc(p, x, groups);
  }

  lemma NewGroupHoldsOwnStories(p: seq<Story>, x: Story, groups: seq<UserStoriesGroup>)
    requires HoldsOwnStories(groups, p)
    requires x.user.Some? && GroupIndex(groups, x.user.value.id) == -1
    requires forall i :: 0 <= i < |p| ==> !ByUser(p[i], x.user.value.id)
    ensures HoldsOwnStories(groups + [UserStoriesGroup(x.user.value, [x])], p + [x])
  {
    var g := groups + [UserStoriesGroup(x.user.value, [x])];
    forall k | 0 <= k < |g|
      ensures g[k].stories == StoriesOf(p + [x], g[k].user.id)
    {
      StoriesOfSnoc(p, x, g[k].user.id);
      if k == |groups| {
        NoStoriesOf(p, x.user.value.id);
      } else {
        assert g[k] == groups[k];
        assert g[k].user.id != x.user.value.id by {
          assert Keys(groups)[k] == g[k].user.id;
        }
      }
    }
  }

  lemma NewGroupCoversFeed(p: seq<Story>, x: Story, groups: seq<UserStoriesGroup>)
    requires CoversFeed(groups, p) && x.user.Some?
    ensures CoversFeed(groups + [UserStoriesGroup(x.user.value, [x])], p + [x])
  {
    var t := p + [x];
    var g := groups + [UserStoriesGroup(x.user.value, [x])];
    assert Keys(g) == Keys(groups) + [x.user.value.id];
    forall i | 0 <= i < |t| && t[i].user.Some?
      ensures GroupIndex(g, t[i].user.value.id) >= 0
    {
      IndexOfAppend(Keys(groups), x.user.value.id, t[i].user.value.id);
      if i < |p| { assert t[i] == p[i]; }
    }
  }

  lemma NewGroupOrdered(p: seq<Story>, x: Story, groups: seq<UserStoriesGroup>)
    requires HoldsOwnStories(groups, p) && OrderedByFirstStory(groups, p)
    requires x.user.Some? && forall i :: 0 <= i < |p| ==> !ByUser(p[i], x.user.value.id)
    ensures OrderedByFirstStory(groups + [UserStoriesGroup(x.user.value, [x])], p + [x])
  {
    var t := p + [x];
    var g := groups + [UserStoriesGroup(x.user.value, [x])];
    var id := x.user.value.id;
    OrderedAfterSnoc(p, x, groups);
    assert FirstStoryOf(p, id) == -1;
    FirstStoryOfSnoc(p, x, id);
    assert FirstStoryOf(t, id) == |p|;
    forall k, l | 0 <= k < l < |g|
      ensures FirstStoryOf(t, g[k].user.id) < FirstStoryOf(t, g[l].user.id)
    {
      assert g[k] == groups[k];
      if l < |groups| {
        assert g[l] == groups[l];
      } else {
        FirstStoryOfGroup(p, x, groups, k);
      }
    }
  }


  /** Case of a story whose user has no group yet. */
  lemma AddNewGroup(p: seq<Story>, x: Story, groups: seq<UserStoriesGroup>)
    requires IsGrouping(groups, p)
    requires x.user.Some? && GroupIndex(groups, x.user.value.id) == -1
    ensures IsGrouping(AddStory(groups, x), p + [x])
  {
    var id := x.user.value.id;
    var g := groups + [UserStoriesGroup(x.user.value, [x])];
    assert AddStory(groups, x) == g;
    forall i | 0 <= i < |p| ensures !ByUser(p[i], id) {
      if ByUser(p[i], id) {
        assert false;
      }
    }
    NewGroupHoldsOwnStories(p, x, groups);
    NewGroupCoversFeed(p, x, groups);
    NewGroupOrdered(p, x, groups);
    assert Keys(g) == Keys(groups) + [id];
  }

  /** The grouping loop does what it promises, whatever the feed. */
  lemma {:induction false} GroupedIsGrouping(stories: seq<Story>)
    ensures IsGrouping(Grouped(stories), stories)
  {
    if stories != [] {
      var p, x := stories[..|stories| - 1], stories[|stories| - 1];
      assert stories == p + [x];
      GroupedIsGrouping(p);
      var groups := Grouped(p);
      if x.user.None? {
        AddWithoutUser(p, x, groups);
      } else if GroupIndex(groups, x.user.value.id) >= 0 {
        AddToExisting(p, x, groups);
      } else {
        AddNewGroup(p, x, groups);
      }
    }
  }

  /** Opening a new group puts its user at the end and moves no other
      user. */
  lemma NewGroupIndex(groups: seq<UserStoriesGroup>, x: Story)
    requires x.user.Some? && GroupIndex(groups, x.user.value.id) == -1
    ensures forall id ::
      GroupIndex(AddStory(groups, x), id) == if id == x.user.value.id then |groups| else GroupIndex(groups, id)
  {
    var g := AddStory(groups, x);
    assert Keys(g) == Keys(groups) + [x.user.value.id];
    forall id ensures GroupIndex(g, id) == if id == x.user.value.id then |groups| else GroupIndex(groups, id) {
      IndexOfAppend(Keys(groups), x.user.value.id, id);
    }
  }

  /** The `groups` memo's loop: a map from user id to the position of that
      user's group, filled in feed order (a `Map` iterates in insertion
      order, so positions are the order of `Array.from(byUser.values())`). */
  method GroupByUser(stories: seq<Story>) returns (groups: seq<UserStoriesGroup>)
    ensures groups == Grouped(stories)
  {
    groups := [];
    var byUser: map<string, nat> := map[];
    var i := 0;
    while i < |stories|
      invariant 0 <= i <= |stories|
      invariant groups == Grouped(stories[..i])
      invariant forall id :: id in byUser <==> GroupIndex(groups, id) >= 0
      invariant forall id :: id in byUser ==> byUser[id] == GroupIndex(groups, id)
    {
      var story := stories[i];
      assert stories[..i + 1][..i] == stories[..i];
      assert Grouped(stories[..i + 1]) == AddStory(groups, story);
      if story.user.Some? {
        var id := story.user.value.id;
        if id in byUser {
          var j := byUser[id];
          PushKeepsUsers(groups, story);
          groups := groups[j := groups[j].(stories := groups[j].stories + [story])];
        } else {
          NewGroupIndex(groups, story);
          byUser := byUser[id := |groups|];
          groups := groups + [UserStoriesGroup(story.user.value, [story])];
        }
      }
      i := i + 1;
    }
    assert stories[..i] == stories;
  }

  /** The stable sort that puts the signed-in user's group first: that group
      moves to the front and every other group keeps its place in line. */
  function CurrentFirst(groups: seq<UserStoriesGroup>, currentUserId: Option<string>): (r: seq<UserStoriesGroup>)
    ensures |r| == |groups| && multiset(r) == multiset(groups)
    ensures currentUserId.Some? && GroupIndex(groups, currentUserId.value) >= 0 ==>
      r[0] == groups[GroupIndex(groups, currentUserId.value)]
    ensures currentUserId.None? || GroupIndex(groups, currentUserId.value) < 0 ==> r == groups
  {
    if currentUserId.None? then groups
    else
      var j := GroupIndex(groups, currentUserId.value);
      if j < 0 then groups
      else
        assert groups == groups[..j] + [groups[j]] + groups[j + 1..];
        [groups[j]] + groups[..j] + groups[j + 1..]
  }

  function OtherThan(id: string): UserStoriesGroup -> bool {
    (g: UserStoriesGroup) => g.user.id != id
  }

  /** Every group other than the signed-in user's keeps its relative order. */
  lemma CurrentFirstKeepsOthersInOrder(groups: seq<UserStoriesGroup>, currentUserId: string)
    ensures Filter(OtherThan(currentUserId), CurrentFirst(groups, Some(currentUserId)))
         == Filter(OtherThan(currentUserId), groups)
  {
    var j := GroupIndex(groups, currentUserId);
    if j >= 0 {
      assert groups == groups[..j] + [groups[j]] + groups[j + 1..];
      assert Keys(groups)[j] == currentUserId;
      FilterMoveDropped(OtherThan(currentUserId), groups[..j], groups[j], groups[j + 1..]);
    }
  }

  /** The `groups` memo. */
  function Groups(stories: seq<Story>, currentUser: Option<Profile>): seq<UserStoriesGroup> {
    CurrentFirst(Grouped(stories), if currentUser.Some? then Some(currentUser.value.id) else None)
  }

  /** `currentUserGroupIndex`: -1 without a signed-in user or without a group
      for them, otherwise the index of their group. */
  function CurrentUserGroupIndex(groups: seq<UserStoriesGroup>, currentUser: Option<Profile>): (r: int)
    ensures -1 <= r < |groups|
    ensures r >= 0 ==> currentUser.Some? && groups[r].user.id == currentUser.value.id
    ensures r == -1 <==> currentUser.None? || forall k :: 0 <= k < |groups| ==> groups[k].user.id != currentUser.value.id
  {
    if currentUser.None? then -1 else GroupIndex(groups, currentUser.value.id)
  }

  /** A user with a story in the feed has a group. */
  lemma HasOwnGroup(stories: seq<Story>, i: int, id: string)
    requires 0 <= i < |stories| && ByUser(stories[i], id)
    ensures GroupIndex(Grouped(stories), id) >= 0
  {
    GroupedIsGrouping(stories);
    assert CoversFeed(Grouped(stories), stories);
  }

  /** A user without a story in the feed has no group. */
  lemma LacksOwnGroup(stories: seq<Story>, id: string)
    requires forall i :: 0 <= i < |stories| ==> !ByUser(stories[i], id)
    ensures GroupIndex(Grouped(stories), id) == -1
  {
    GroupedIsGrouping(stories);
    var grouped := Grouped(stories);
    assert HoldsOwnStories(grouped, stories);
    forall k | 0 <= k < |grouped| ensures Keys(grouped)[k] != id {
      var s := grouped[k].stories[0];
      assert s in stories;
    }
  }

  /** Once the groups are ordered, the signed-in user's own group (when they
      have posted a story) is always the first one. */
  lemma OwnGroupIsFirst(stories: seq<Story>, currentUser: Profile)
    ensures
      var groups := Groups(stories, Some(currentUser));
      CurrentUserGroupIndex(groups, Some(currentUser)) ==
        if exists i :: 0 <= i < |stories| && ByUser(stories[i], currentUser.id) then 0 else -1
  {
    var id := currentUser.id;
    var grouped := Grouped(stories);
    var groups := Groups(stories, Some(currentUser));
    if exists i :: 0 <= i < |stories| && ByUser(stories[i], id) {
      var i :| 0 <= i < |stories| && ByUser(stories[i], id);
      HasOwnGroup(stories, i, id);
      assert groups[0] == grouped[GroupIndex(grouped, id)];
      assert Keys(groups)[0] == id;
    } else {
      LacksOwnGroup(stories, id);
      assert groups == grouped;
    }
  }


  /** Ordering the groups keeps every group's contents. */
  lemma GroupsAreGrouping(stories: seq<Story>, currentUser: Option<Profile>)
    ensures AllNonEmpty(Groups(stories, currentUser))
    ensures forall k :: 0 <= k < |Groups(stories, currentUser)| ==>
      var g := Groups(stories, currentUser)[k];
      g.stories == StoriesOf(stories, g.user.id)
  {
    GroupedIsGrouping(stories);
    var grouped := Grouped(stories);
    var groups := Groups(stories, currentUser);
    forall k | 0 <= k < |groups|
      ensures groups[k].stories != [] && groups[k].stories == StoriesOf(stories, groups[k].user.id)
    {
      assert groups[k] in multiset(grouped);
    }
  }

  /** `handleStoryViewed`: only stories with that id become viewed; every
      other field of every story is kept. */
  function MarkViewed(stories: seq<Story>, storyId: string): (r: seq<Story>)
    ensures |r| == |stories|
    ensures forall i :: 0 <= i < |r| ==>
      r[i].isViewed == (stories[i].isViewed || stories[i].id == storyId)
      && r[i].(isViewed := stories[i].isViewed) == stories[i]
  {
    seq(|stories|, i requires 0 <= i < |stories| =>
      if stories[i].id == storyId then stories[i].(isViewed := true) else stories[i])
  }

  /** A story other than the deleted one. */
  function Kept(storyId: string): Story -> bool {
    (s: Story) => s.id != storyId
  }

  /** `handleStoryDeleted`'s filter: every story with that id goes, every
      other story stays, in order. */
  function RemoveStory(stories: seq<Story>, storyId: string): (r: seq<Story>)
    ensures forall i :: 0 <= i < |r| ==> r[i].id != storyId
    ensures forall x :: multiset(r)[x] == if x.id == storyId then 0 else multiset(stories)[x]
  {
    forall x ensures multiset(Filter(Kept(storyId), stories))[x] == if x.id == storyId then 0 else multiset(stories)[x] {
      FilterMultiset(Kept(storyId), stories, x);
    }
    Filter(Kept(storyId), stories)
  }

  /** The filter keeps order: one story stays exactly when its id differs,
      and the stories kept from a list are those kept from its first part
      followed by those kept from the rest. */
  lemma RemoveStoryKeepsOrder(a: seq<Story>, b: seq<Story>, x: Story, storyId: string)
    ensures RemoveStory([x], storyId) == if x.id == storyId then [] else [x]
    ensures RemoveStory(a + b, storyId) == RemoveStory(a, storyId) + RemoveStory(b, storyId)
  {
    assert [x][1..] == [];
    FilterAppend(Kept(storyId), a, b);
  }

  /** The coloured ring: some story of the group has not been viewed. */
  predicate HasUnviewed(group: UserStoriesGroup) {
    exists i :: 0 <= i < |group.stories| && !group.stories[i].isViewed
  }

  /** Viewing a story of a group never gives that group back its ring, and
      viewing its last unviewed story takes the ring away. */
  lemma ViewingClearsRing(stories: seq<Story>, storyId: string, currentUser: Option<Profile>, id: string)
    requires forall i :: 0 <= i < |stories| && ByUser(stories[i], id) && !stories[i].isViewed ==> stories[i].id == storyId
    ensures forall i :: 0 <= i < |MarkViewed(stories, storyId)| && ByUser(MarkViewed(stories, storyId)[i], id) ==>
      MarkViewed(stories, storyId)[i].isViewed
    ensures var groups := Groups(MarkViewed(stories, storyId), currentUser);
      forall k :: 0 <= k < |groups| && groups[k].user.id == id ==> !HasUnviewed(groups[k])
  {
    var marked := MarkViewed(stories, storyId);
    GroupsAreGrouping(marked, currentUser);
    var groups := Groups(marked, currentUser);
    forall k | 0 <= k < |groups| && groups[k].user.id == id
      ensures !HasUnviewed(groups[k])
    {
      forall i | 0 <= i < |groups[k].stories| ensures groups[k].stories[i].isViewed {
        assert groups[k].stories[i] in marked;
      }
    }
  }

  /** The bar's state. */
  class Bar {
    var stories: seq<Story>
    var currentUser: Option<Profile>
    var loading: bool
    var isViewerOpen: bool
    var activeGroupIndex: int
    var isCreateOpen: bool

    constructor (currentUser: Option<Profile>)
      ensures this.currentUser == currentUser && stories == [] && loading
      ensures !isViewerOpen && activeGroupIndex == 0 && !isCreateOpen
    {
      this.currentUser := currentUser;
      stories := [];
      loading := true;
      isViewerOpen := false;
      activeGroupIndex := 0;
      isCreateOpen := false;
    }

    function GroupsShown(): seq<UserStoriesGroup>
      reads this
    {
      Groups(stories, currentUser)
    }

    /** `loadStories`: the fetched feed replaces the list; a throw keeps it. */
    method LoadStories(fetched: Result<seq<Story>>)
      modifies this`stories, this`loading
      ensures !loading
      ensures stories == if fetched.Ok? then fetched.value else old(stories)
    {
      if fetched.Ok? {
        stories := fetched.value;
      }
      loading := false;
    }

    /** `openViewerForUser`: ignored outside `[0, groups.length)`. */
    method OpenViewerForUser(groupIndex: int)
      modifies this`activeGroupIndex, this`isViewerOpen
      ensures 0 <= groupIndex < |GroupsShown()| ==> activeGroupIndex == groupIndex && isViewerOpen
      ensures !(0 <= groupIndex < |GroupsShown()|) ==>
        activeGroupIndex == old(activeGroupIndex) && isViewerOpen == old(isViewerOpen)
    {
      if groupIndex < 0 || groupIndex >= |GroupsShown()| {
        return;
      }
      activeGroupIndex := groupIndex;
      isViewerOpen := true;
    }

    method HandleStoryViewed(storyId: string)
      modifies this`stories
      ensures stories == MarkViewed(old(stories), storyId)
    {
      stories := MarkViewed(stories, storyId);
    }

    method HandleStoryCreated(story: Story)
      modifies this`stories
      ensures stories == [story] + old(stories)
    {
      stories := [story] + stories;
    }

    /** `handleStoryDeleted`: the backend delete throws on an error, and then
        the list is left as it was and the error reaches the viewer. */
    method HandleStoryDeleted(storyId: string, deleteError: Option<string>) returns (outcome: Result<()>)
      modifies this`stories
      ensures outcome.Ok? <==> deleteError.None?
      ensures stories == if deleteError.None? then RemoveStory(old(stories), storyId) else old(stories)
    {
      if deleteError.Some? {
        return Err(deleteError.value);
      }
      stories := RemoveStory(stories, storyId);
      return Ok(());
    }

    /** "Your story": open the viewer on your group, or the create dialog. */
    method HandleMyStoryClick()
      modifies this`activeGroupIndex, this`isViewerOpen, this`isCreateOpen
      ensures var j := CurrentUserGroupIndex(GroupsShown(), currentUser);
        (j != -1 ==> activeGroupIndex == j && isViewerOpen && isCreateOpen == old(isCreateOpen))
        && (j == -1 ==> isCreateOpen && activeGroupIndex == old(activeGroupIndex) && isViewerOpen == old(isViewerOpen))
    {
      var j := CurrentUserGroupIndex(GroupsShown(), currentUser);
      if j != -1 {
        OpenViewerForUser(j);
      } else {
        isCreateOpen := true;
      }
    }
  }
}
