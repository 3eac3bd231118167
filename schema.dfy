/**
 * The database rows the components read, as the Prisma client hands them over:
 * users, stories, follower edges and follow requests. The Prisma schema itself
 * is not part of this model; only the fields the components use appear here.
 */
module Schema {

  import opened Wrappers

  /** An opaque user identifier, as supplied by the authentication provider. */
  type UserId = string

  datatype User = User(id: UserId, username: string, avatar: string)

  /**
   * A story's identifier. Rows that come from the database carry a persisted
   * id; the optimistic client-side placeholder carries a temporary one, which
   * the source draws at random and this model takes as an input.
   */
  datatype StoryId = Persisted(n: int) | Temporary(token: nat)

  /** Times are milliseconds since the epoch. */
  datatype Story = Story(id: StoryId, img: string, createdAt: int, expiresAt: int, userId: UserId)

  /** A story row joined with its author (`include: { user: true }`). */
  datatype StoryWithUser = StoryWithUser(story: Story, user: User)

  /** A directed follow edge: `followerId` follows `followingId`. */
  datatype Follower = Follower(followerId: UserId, followingId: UserId)

  datatype FollowRequest = FollowRequest(id: int, senderId: UserId, receiverId: UserId)

  /** A follow request joined with its sender (`include: { sender: true }`). */
  datatype RequestWithSender = RequestWithSender(request: FollowRequest, sender: User)

  datatype Database = Database(
    users: map<UserId, User>,
    stories: seq<Story>,
    followers: set<Follower>,
    followRequests: seq<FollowRequest>)

  /** Every user is stored under its own id. */
  predicate UsersKeyed(users: map<UserId, User>) {
    forall k :: k in users ==> users[k].id == k
  }

  /** Every story's author is a stored user (a foreign key). */
  predicate AuthorsExist(stories: seq<Story>, users: map<UserId, User>) {
    forall s :: s in stories ==> s.userId in users
  }

  /** Every request's sender is a stored user (a foreign key). */
  predicate SendersExist(requests: seq<FollowRequest>, users: map<UserId, User>) {
    forall q :: q in requests ==> q.senderId in users
  }

  /**
   * The authentication provider's `userId` is truthy: someone is signed in.
   * An absent id and an empty id both count as nobody.
   */
  predicate SignedIn(userId: Option<UserId>) {
    userId.Some? && userId.value != ""
  }

  /** The referential integrity the database guarantees for the joins. */
  predicate Valid(db: Database) {
    && UsersKeyed(db.users)
    && AuthorsExist(db.stories, db.users)
    && SendersExist(db.followRequests, db.users)
  }

  /** Attaches to every story row its author, looked up by `userId`. */
  function IncludeUser(rows: seq<Story>, users: map<UserId, User>): (r: seq<StoryWithUser>)
    requires AuthorsExist(rows, users)
    ensures |r| == |rows|
    ensures forall i :: 0 <= i < |r| ==> r[i].story == rows[i] && r[i].user == users[rows[i].userId]
    ensures UsersKeyed(users) ==> forall i :: 0 <= i < |r| ==> r[i].user.id == rows[i].userId
  {
    if rows == [] then []
    else [StoryWithUser(rows[0], users[rows[0].userId])] + IncludeUser(rows[1..], users)
  }

  /** Attaches to every request row its sender, looked up by `senderId`. */
  function IncludeSender(rows: seq<FollowRequest>, users: map<UserId, User>): (r: seq<RequestWithSender>)
    requires SendersExist(rows, users)
    ensures |r| == |rows|
    ensures forall i :: 0 <= i < |r| ==> r[i].request == rows[i] && r[i].sender == users[rows[i].senderId]
    ensures UsersKeyed(users) ==> forall i :: 0 <= i < |r| ==> r[i].sender.id == rows[i].senderId
  {
    if rows == [] then []
    else [RequestWithSender(rows[0], users[rows[0].senderId])] + IncludeSender(rows[1..], users)
  }
}
