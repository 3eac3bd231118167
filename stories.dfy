/**
 * The server component that loads the stories a signed-in user may see
 * (src/components/Stories.tsx). Its whole logic is the early return for a
 * visitor who is not signed in and the `where` clause of one `findMany`.
 */
module Stories {

  import opened Wrappers
  import opened Schema

  /** `user: { followers: { some: { followerId: viewer } } }`: the author has a follower edge from the viewer. */
  predicate FollowedByViewer(s: Story, viewer: UserId, followers: set<Follower>) {
    exists f :: f in followers && f.followingId == s.userId && f.followerId == viewer
  }

  /** The `where` clause: not yet expired, and followed by the viewer or the viewer's own. */
  predicate MatchesWhere(s: Story, viewer: UserId, followers: set<Follower>, now: int) {
    && s.expiresAt > now
    && (FollowedByViewer(s, viewer, followers) || s.userId == viewer)
  }

  /**
   * The visibility rule stated independently of the query: `viewer` may see
   * `s` at `now` iff `now` is before its expiry and the viewer is its author
   * or follows its author.
   */
  predicate CanSee(viewer: UserId, s: Story, followers: set<Follower>, now: int) {
    now < s.expiresAt && (viewer == s.userId || Follower(viewer, s.userId) in followers)
  }

  /** The query agrees with the visibility rule on every story, viewer, edge set and time. */
  lemma WhereIsVisibility(s: Story, viewer: UserId, followers: set<Follower>, now: int)
    ensures MatchesWhere(s, viewer, followers, now) <==> CanSee(viewer, s, followers, now)
  {
  }

  /**
   * `findMany` with the `where` clause above, over the stored rows. The rows
   * are kept in store order, but the contract speaks only of multiplicities:
   * the query has no `orderBy`, so no order is promised.
   */
  function FindMany(rows: seq<Story>, viewer: UserId, followers: set<Follower>, now: int): (r: seq<Story>)
    ensures forall s :: multiset(r)[s] == if MatchesWhere(s, viewer, followers, now) then multiset(rows)[s] else 0
    ensures forall s :: s in r <==> s in rows && MatchesWhere(s, viewer, followers, now)
    ensures |r| <= |rows|
  {
    if rows == [] then []
    else
      assert rows == [rows[0]] + rows[1..];
      var rest := FindMany(rows[1..], viewer, followers, now);
      if MatchesWhere(rows[0], viewer, followers, now) then [rows[0]] + rest else rest
  }

  /**
   * The component's data: `None` (it renders nothing) when nobody is signed in
   * (an absent or empty user id), otherwise the selected stories with their
   * authors, all of which are handed to the story list.
   */
  function Load(currentUserId: Option<UserId>, db: Database, now: int): (r: Option<seq<StoryWithUser>>)
    requires UsersKeyed(db.users) && AuthorsExist(db.stories, db.users)
    ensures r.None? <==> !SignedIn(currentUserId)
    ensures r.Some? ==> r.value == IncludeUser(FindMany(db.stories, currentUserId.value, db.followers, now), db.users)
    ensures r.Some? ==> forall x :: x in r.value ==>
      && x.story in db.stories
      && x.user == db.users[x.story.userId]
      && x.user.id == x.story.userId
      && CanSee(currentUserId.value, x.story, db.followers, now)
    ensures r.Some? ==> forall s :: s in db.stories && CanSee(currentUserId.value, s, db.followers, now) ==>
      StoryWithUser(s, db.users[s.userId]) in r.value
  {
    if !SignedIn(currentUserId) then None
    else
      var viewer := currentUserId.value;
      var rows := FindMany(db.stories, viewer, db.followers, now);
      var r := IncludeUser(rows, db.users);
      JoinedFromRows(rows, db.users);
      forall s | s in db.stories ensures MatchesWhere(s, viewer, db.followers, now) <==> CanSee(viewer, s, db.followers, now) {
        WhereIsVisibility(s, viewer, db.followers, now);
      }
      Some(r)
  }

  /** Every joined story comes from one of the rows and carries that row's stored author. */
  lemma JoinedFromRows(rows: seq<Story>, users: map<UserId, User>)
    requires AuthorsExist(rows, users)
    ensures forall x :: x in IncludeUser(rows, users) ==> x.story in rows && x.user == users[x.story.userId]
    ensures forall s :: s in rows ==> StoryWithUser(s, users[s.userId]) in IncludeUser(rows, users)
  {
    var r := IncludeUser(rows, users);
    forall s | s in rows ensures StoryWithUser(s, users[s.userId]) in r {
      var i :| 0 <= i < |rows| && rows[i] == s;
      assert r[i] == StoryWithUser(s, users[s.userId]);
    }
  }

  /** A story whose expiry equals the current time is already gone: the comparison is strict. */
  lemma ExpiredNotSelected(rows: seq<Story>, viewer: UserId, followers: set<Follower>, now: int, s: Story)
    requires s.expiresAt <= now
    ensures s !in FindMany(rows, viewer, followers, now)
  {
  }

  /** The viewer's own unexpired stories are selected whatever the follower edges are. */
  lemma OwnStoriesSelected(rows: seq<Story>, viewer: UserId, followers: set<Follower>, now: int, s: Story)
    requires s in rows && s.userId == viewer && now < s.expiresAt
    ensures s in FindMany(rows, viewer, followers, now)
  {
  }

  /**
   * Only the edge from the viewer to the author counts: a story by someone the
   * viewer does not follow stays hidden even when its author follows the viewer.
   */
  lemma DirectionMatters(rows: seq<Story>, viewer: UserId, followers: set<Follower>, now: int, s: Story)
    requires s.userId != viewer && Follower(viewer, s.userId) !in followers
    ensures s !in FindMany(rows, viewer, followers + {Follower(s.userId, viewer)}, now)
  {
  }

  /**
   * Adding follower edges never removes a selected story, with multiplicity;
   * read with the two edge sets swapped, removing edges never adds one.
   */
  lemma MonotoneInFollowers(rows: seq<Story>, viewer: UserId, fewer: set<Follower>, more: set<Follower>, now: int)
    requires fewer <= more
    ensures multiset(FindMany(rows, viewer, fewer, now)) <= multiset(FindMany(rows, viewer, more, now))
  {
  }

  /** Once the viewer unfollows an author, none of that author's stories is selected. */
  lemma UnfollowHidesAuthor(rows: seq<Story>, viewer: UserId, author: UserId, followers: set<Follower>, now: int, s: Story)
    requires author != viewer && s.userId == author
    ensures s !in FindMany(rows, viewer, followers - {Follower(viewer, author)}, now)
  {
  }
}
