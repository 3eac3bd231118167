/**
 * The client component that shows the loaded stories and lets the user add
 * one (src/components/StoryList.tsx). It holds two pieces of state, the story
 * list and the last upload result, and `add` updates them optimistically:
 * first a placeholder story, then, once the server answers, the created story.
 */
module StoryList {

  import opened Wrappers
  import opened Schema
  import Stories

  /** A story lives for 24 hours, in milliseconds. */
  const DayMs: int := 24 * 60 * 60 * 1000

  /** The username shown on the placeholder while the server is saving the story. */
  const SendingUsername: string := "Sending..."

  /** The avatar used when the signed-in user has no image. */
  const NoAvatar: string := "/noAvatar.png"

  /** What the upload widget reports; only `secure_url` is read. */
  datatype UploadInfo = UploadInfo(secureUrl: Option<string>)

  /** How the `addStory` server action ended: with the stored story, or by throwing. */
  datatype AddOutcome = Created(story: StoryWithUser) | Failed

  /** The component's state: `storyList` and `img`. */
  datatype ListState = ListState(storyList: seq<StoryWithUser>, img: Option<UploadInfo>)

  /** `img?.secure_url` is truthy: there is an upload result with a non-empty URL. */
  predicate HasSecureUrl(img: Option<UploadInfo>) {
    img.Some? && img.value.secureUrl.Some? && img.value.secureUrl.value != ""
  }

  /** `user?.imageUrl || "/noAvatar.png"`: the user's image when it is a non-empty string, else the default. */
  function AvatarOrDefault(imageUrl: Option<string>): (a: string)
    ensures a != ""
    ensures imageUrl.Some? && imageUrl.value != "" ==> a == imageUrl.value
    ensures imageUrl.None? || imageUrl.value == "" ==> a == NoAvatar
  {
    if imageUrl.Some? && imageUrl.value != "" then imageUrl.value else NoAvatar
  }

  /**
   * The optimistic story shown while the server saves the upload at `url`:
   * a temporary id, created at `now` (one clock reading for both times) and
   * expiring a day later, authored by `userId`, shown as "Sending...".
   */
  function Placeholder(tempId: nat, url: string, now: int, userId: UserId, imageUrl: Option<string>): (p: StoryWithUser)
    ensures p.story.id == Temporary(tempId) && p.story.img == url
    ensures p.story.createdAt == now && p.story.expiresAt == p.story.createdAt + DayMs
    ensures p.story.userId == userId && p.user.id == userId
    ensures p.user.username == SendingUsername && p.user.avatar == AvatarOrDefault(imageUrl)
  {
    StoryWithUser(
      Story(Temporary(tempId), url, now, now + DayMs, userId),
      User(userId, SendingUsername, AvatarOrDefault(imageUrl)))
  }

  /**
   * The optimistic step of `add`, once the guard has passed: the placeholder
   * for the uploaded URL is put in front of the list. This is the state shown
   * while the server call is pending.
   */
  function Optimistic(s: ListState, userId: UserId, tempId: nat, now: int, imageUrl: Option<string>): ListState
    requires HasSecureUrl(s.img)
  {
    ListState([Placeholder(tempId, s.img.value.secureUrl.value, now, userId, imageUrl)] + s.storyList, s.img)
  }

  /**
   * The step of `add` after the server answers: on success the created story
   * is put in front and the upload result is cleared; on failure nothing changes.
   */
  function Settle(s: ListState, outcome: AddOutcome): ListState {
    match outcome
    case Created(created) => ListState([created] + s.storyList, None)
    case Failed => s
  }

  /** The state after one `add`: nothing happens without an upload URL; otherwise the two steps above. */
  function AfterAdd(s: ListState, userId: UserId, tempId: nat, now: int, imageUrl: Option<string>, outcome: AddOutcome): ListState
  {
    if !HasSecureUrl(s.img) then s
    else Settle(Optimistic(s, userId, tempId, now, imageUrl), outcome)
  }

  /** While the server call is pending, the list is the placeholder in front of the old list, and the upload result is kept. */
  lemma OptimisticStep(s: ListState, userId: UserId, tempId: nat, now: int, imageUrl: Option<string>)
    requires HasSecureUrl(s.img)
    ensures var o := Optimistic(s, userId, tempId, now, imageUrl);
      && o.storyList == [Placeholder(tempId, s.img.value.secureUrl.value, now, userId, imageUrl)] + s.storyList
      && o.storyList[1..] == s.storyList
      && o.img == s.img
  {
  }

  /** A failed save leaves exactly the optimistic state; a successful one adds the created story in front of it. */
  lemma AddFromOptimistic(s: ListState, userId: UserId, tempId: nat, now: int, imageUrl: Option<string>, created: StoryWithUser)
    requires HasSecureUrl(s.img)
    ensures AfterAdd(s, userId, tempId, now, imageUrl, Failed) == Optimistic(s, userId, tempId, now, imageUrl)
    ensures AfterAdd(s, userId, tempId, now, imageUrl, Created(created))
         == ListState([created] + Optimistic(s, userId, tempId, now, imageUrl).storyList, None)
  {
  }

  /**
   * Two adds whose server calls overlap: both placeholders go in first, then
   * each answer is put in front of whatever the list is when it arrives, as the
   * source's functional updates do. The second add sees the same upload.
   */
  lemma OverlappingAdds(s: ListState, userId: UserId, imageUrl: Option<string>,
                        tempId1: nat, now1: int, tempId2: nat, now2: int, c1: StoryWithUser, c2: StoryWithUser)
    requires HasSecureUrl(s.img)
    ensures var o1 := Optimistic(s, userId, tempId1, now1, imageUrl);
      HasSecureUrl(o1.img) &&
      var o2 := Optimistic(o1, userId, tempId2, now2, imageUrl);
      var url := s.img.value.secureUrl.value;
      var r := Settle(Settle(o2, Created(c1)), Created(c2));
      && r.storyList == [c2, c1, Placeholder(tempId2, url, now2, userId, imageUrl), Placeholder(tempId1, url, now1, userId, imageUrl)] + s.storyList
      && r.img == None
  {
  }

  /** `add` without an uploaded image URL changes nothing. */
  lemma AddWithoutImageIsNoOp(s: ListState, userId: UserId, tempId: nat, now: int, imageUrl: Option<string>, outcome: AddOutcome)
    requires !HasSecureUrl(s.img)
    ensures AfterAdd(s, userId, tempId, now, imageUrl, outcome) == s
  {
  }

  /**
   * `add` only ever puts stories in front: the old list survives unchanged as
   * the tail, and the list grows by 0 (no image), 1 (failure) or 2 (success).
   */
  lemma AddKeepsOldStories(s: ListState, userId: UserId, tempId: nat, now: int, imageUrl: Option<string>, outcome: AddOutcome)
    ensures var r := AfterAdd(s, userId, tempId, now, imageUrl, outcome);
      && |r.storyList| == |s.storyList| + (if !HasSecureUrl(s.img) then 0 else if outcome.Failed? then 1 else 2)
      && r.storyList[|r.storyList| - |s.storyList|..] == s.storyList
  {
  }

  /**
   * On success the created story comes first and the placeholder second: the
   * placeholder is not replaced, so the upload is listed twice. The upload
   * result is cleared.
   */
  lemma AddSuccess(s: ListState, userId: UserId, tempId: nat, now: int, imageUrl: Option<string>, created: StoryWithUser)
    requires HasSecureUrl(s.img)
    ensures var r := AfterAdd(s, userId, tempId, now, imageUrl, Created(created));
      var p := Placeholder(tempId, s.img.value.secureUrl.value, now, userId, imageUrl);
      && r.storyList == [created, p] + s.storyList
      && p in r.storyList
      && r.img == None
  {
  }

  /** On failure the placeholder stays in front of the old list and the upload result is kept. */
  lemma AddFailure(s: ListState, userId: UserId, tempId: nat, now: int, imageUrl: Option<string>)
    requires HasSecureUrl(s.img)
    ensures var r := AfterAdd(s, userId, tempId, now, imageUrl, Failed);
      && r.storyList == [Placeholder(tempId, s.img.value.secureUrl.value, now, userId, imageUrl)] + s.storyList
      && r.img == s.img
  {
  }

  /** Because a success clears the upload result, a second `add` before a new upload does nothing. */
  lemma AddAfterSuccessIsNoOp(s: ListState, userId: UserId, tempId: nat, now: int, imageUrl: Option<string>, created: StoryWithUser,
                              tempId': nat, now': int, outcome': AddOutcome)
    ensures var r := AfterAdd(s, userId, tempId, now, imageUrl, Created(created));
      HasSecureUrl(s.img) ==> AfterAdd(r, userId, tempId', now', imageUrl, outcome') == r
  {
  }

  /**
   * The placeholder obeys the server's visibility rule for its author: it
   * passes the stories query exactly until a day after it was made; e.g. it
   * passes one minute before that and fails one minute after.
   */
  lemma PlaceholderLastsADay(tempId: nat, url: string, now: int, userId: UserId, imageUrl: Option<string>, followers: set<Follower>, t: int)
    ensures var p := Placeholder(tempId, url, now, userId, imageUrl).story;
      && (Stories.MatchesWhere(p, userId, followers, t) <==> t < now + DayMs)
      && Stories.MatchesWhere(p, userId, followers, now + DayMs - 60 * 1000)
      && !Stories.MatchesWhere(p, userId, followers, now + DayMs + 60 * 1000)
  {
  }

  class StoryList {
    /** The signed-in user, passed in by the stories component. */
    const userId: UserId
    var storyList: seq<StoryWithUser>
    var img: Option<UploadInfo>

    function State(): ListState
      reads this
    {
      ListState(storyList, img)
    }

    /** `useState(stories)` and `useState()`: the list starts as the loaded stories, with no upload. */
    constructor (stories: seq<StoryWithUser>, userId: UserId)
      ensures this.userId == userId
      ensures storyList == stories && img == None
    {
      this.userId := userId;
      storyList := stories;
      img := None;
    }

    /** The upload widget's `onSuccess`: remembers the upload result. */
    method OnUploadSuccess(info: UploadInfo)
      modifies this
      ensures storyList == old(storyList) && img == Some(info)
    {
      img := Some(info);
    }

    /**
     * The guard and the optimistic step of `add`, everything before the call
     * to the server action: `started` tells whether there was an upload URL.
     */
    method BeginAdd(tempId: nat, now: int, imageUrl: Option<string>) returns (started: bool)
      modifies this
      ensures started == HasSecureUrl(old(img))
      ensures started ==> State() == Optimistic(old(State()), userId, tempId, now, imageUrl)
      ensures !started ==> State() == old(State())
    {
      if !HasSecureUrl(img) {
        return false;
      }
      var url := img.value.secureUrl.value;
      var newStory := Placeholder(tempId, url, now, userId, imageUrl);
      storyList := [newStory] + storyList;
      return true;
    }

    /** The rest of `add`, once the server has answered with `outcome`. */
    method FinishAdd(outcome: AddOutcome)
      modifies this
      ensures State() == Settle(old(State()), outcome)
    {
      match outcome {
        case Created(createdStory) =>
          storyList := [createdStory] + storyList;
          img := None;
        case Failed =>
      }
    }

    /**
     * `add`, with the clock reading `now`, the temporary id, the user's image
     * and the server's answer as inputs.
     */
    method Add(tempId: nat, now: int, imageUrl: Option<string>, outcome: AddOutcome)
      modifies this
      ensures State() == AfterAdd(old(State()), userId, tempId, now, imageUrl, outcome)
    {
      var started := BeginAdd(tempId, now, imageUrl);
      if started {
        FinishAdd(outcome);
      }
    }
  }
}
