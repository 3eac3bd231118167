/**
 * The server component that shows the follow requests waiting for the
 * signed-in user (src/components/FriendRequest.tsx): an early return when
 * nobody is signed in, one `findMany` filtered on `receiverId`, and a second
 * early return when that finds nothing.
 */
module FriendRequest {

  import opened Wrappers
  import opened Schema

  /** `findMany({ where: { receiverId: userId } })` over the stored request rows; no order is promised. */
  function Incoming(rows: seq<FollowRequest>, userId: UserId): (r: seq<FollowRequest>)
    ensures forall q :: multiset(r)[q] == if q.receiverId == userId then multiset(rows)[q] else 0
    ensures forall q :: q in r <==> q in rows && q.receiverId == userId
    ensures |r| <= |rows|
  {
    if rows == [] then []
    else
      assert rows == [rows[0]] + rows[1..];
      var rest := Incoming(rows[1..], userId);
      if rows[0].receiverId == userId then [rows[0]] + rest else rest
  }

  /**
   * The component's data: `None` (it renders nothing) when nobody is signed in
   * (an absent or empty user id) or no request is addressed to the user,
   * otherwise the requests addressed to the user, each with its sender, as
   * passed to the request list.
   */
  function Load(userId: Option<UserId>, db: Database): (r: Option<seq<RequestWithSender>>)
    requires Valid(db)
    ensures r.None? <==> !SignedIn(userId) || forall q :: q in db.followRequests ==> q.receiverId != userId.value
    ensures r.Some? ==> r.value == IncludeSender(Incoming(db.followRequests, userId.value), db.users)
    ensures r.Some? ==> r.value != []
    ensures r.Some? ==> forall x :: x in r.value ==>
      && x.request in db.followRequests
      && x.request.receiverId == userId.value
      && x.sender == db.users[x.request.senderId]
      && x.sender.id == x.request.senderId
    ensures r.Some? ==> forall q :: q in db.followRequests && q.receiverId == userId.value ==>
      RequestWithSender(q, db.users[q.senderId]) in r.value
  {
    if !SignedIn(userId) then None
    else
      var u := userId.value;
      var rows := Incoming(db.followRequests, u);
      var r := IncludeSender(rows, db.users);
      IncomingEmpty(db.followRequests, u);
      JoinedFromRows(rows, db.users);
      if |r| == 0 then None else Some(r)
  }

  /** The filter finds nothing exactly when no stored request is addressed to the user. */
  lemma IncomingEmpty(rows: seq<FollowRequest>, u: UserId)
    ensures Incoming(rows, u) == [] <==> forall q :: q in rows ==> q.receiverId != u
  {
  }

  /** Every joined row comes from one of the rows and carries that row's stored sender. */
  lemma JoinedFromRows(rows: seq<FollowRequest>, users: map<UserId, User>)
    requires SendersExist(rows, users)
    ensures forall x :: x in IncludeSender(rows, users) ==> x.request in rows && x.sender == users[x.request.senderId]
    ensures forall q :: q in rows ==> RequestWithSender(q, users[q.senderId]) in IncludeSender(rows, users)
  {
  }

  /** A request the user sent to someone else is never among the user's incoming requests. */
  lemma SentRequestsNotShown(db: Database, u: UserId, q: FollowRequest)
    requires Valid(db)
    requires q.senderId == u && q.receiverId != u
    ensures Load(Some(u), db).Some? ==> forall x :: x in Load(Some(u), db).value ==> x.request != q
  {
  }
}
