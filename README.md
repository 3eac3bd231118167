# Stories and follow requests of a social front end, in Dafny

This project models the three pieces of logic in the social network's story
and friend-request components:

- **Stories** (`src/components/Stories.tsx`): the server component renders
  nothing for a visitor who is not signed in; otherwise it loads, with one
  `findMany`, every story that has not expired and whose author is the viewer
  or has a follower edge from the viewer, each joined with its author.
- **StoryList** (`src/components/StoryList.tsx`): the client component holds
  the story list and the last upload result. Its `add` does nothing without an
  upload URL; otherwise it puts an optimistic placeholder (temporary id,
  username "Sending...", expiry 24 hours after creation) in front of the list,
  asks the server to save the story, and on success puts the created story in
  front and clears the upload result. On failure the placeholder stays.
- **FriendRequest** (`src/components/FriendRequest.tsx`): the server component
  renders nothing for a visitor who is not signed in, loads the follow requests
  whose receiver is the user (each with its sender), and renders nothing when
  there are none.

Files: `wrappers.dfy` (an `Option` type standing for `null`/`undefined`),
`schema.dfy` (the database rows, the referential integrity the joins rely on,
and the two `include` joins as lookups), `stories.dfy`, `story_list.dfy`,
`friend_request.dfy`.

The stories query is a recursive filter over the stored rows. Its contract
speaks of multiplicities only, not of order, because the query has no
`orderBy`. The query's `where` clause is shown equivalent to an independent
statement of the visibility rule (`Stories.CanSee`): a viewer sees a story
before its expiry when the viewer wrote it or follows its author.

`StoryList.StoryList` is a class with the two state cells as fields. Its
`Add` runs two steps, `BeginAdd` (the guard and the optimistic prepend) and
`FinishAdd` (what happens once the server answers), each proved against a
specification function (`StoryList.Optimistic`, `StoryList.Settle`); the
lemmas state what `add` promises about these functions and about their
composition `StoryList.AfterAdd`. The comment at
`src/components/StoryList.tsx:47` says the created story replaces the
optimistic one, but the code prepends it; the model does what the code does,
and `StoryList.AddSuccess` shows that after a success the placeholder is still
in the list, right behind the created story.

Inputs standing for what the source reads from its environment:
the signed-in user (`Option<UserId>`, from the authentication provider; as in
the source's truthiness tests, an empty id counts as nobody signed in), the
current time in milliseconds (`now`, read once where the source reads the
clock twice), the temporary id of the placeholder (the source draws a random
number), the user's image URL, the upload result, and the server action's
outcome (`AddOutcome`: the created story, or a thrown error).

## Model

| member | source | states |
|---|---|---|
| Schema.IncludeUser | src/components/Stories.tsx:31-33 | every selected row keeps its place and is paired with its stored author, whose id is the row's `userId` |
| Schema.IncludeSender | src/components/FriendRequest.tsx:15-17 | every request row keeps its place and is paired with its stored sender, whose id is the row's `senderId` |
| Schema.SignedIn | src/components/Stories.tsx:8 | the signed-in test: an id is present and is not the empty string, the truthiness the source tests (also src/components/FriendRequest.tsx:10) |
| Stories.FollowedByViewer | src/components/Stories.tsx:18-24 | the `followers.some` filter: some follower edge has the story's author as `followingId` and the viewer as `followerId` |
| Stories.MatchesWhere | src/components/Stories.tsx:12-30 | the `where` clause: `expiresAt` strictly after `now`, and the author followed by the viewer or the viewer's own |
| Stories.WhereIsVisibility | src/components/Stories.tsx:12-30 | the `where` clause holds of a story iff the viewer may see it: unexpired, and the viewer is the author or has an edge to the author |
| Stories.FindMany | src/components/Stories.tsx:11-34 | each stored row is selected, with its full multiplicity, iff it matches the `where` clause, and nothing else is selected; the selection is no larger than the store |
| Stories.Load | src/components/Stories.tsx:5-39 | no result iff nobody is signed in (no id or an empty one); otherwise the result is exactly the filtered rows, each joined with its stored author: every result is a stored story the viewer may see, and every stored story the viewer may see is in the result |
| Stories.JoinedFromRows | src/components/Stories.tsx:31-33 | every joined story comes from the selected rows with its stored author, and every selected row appears joined |
| Stories.ExpiredNotSelected | src/components/Stories.tsx:13-15 | a story whose expiry is at or before `now` is not selected (the comparison is strict) |
| Stories.OwnStoriesSelected | src/components/Stories.tsx:26-28 | the viewer's own unexpired stories are selected whatever the follower edges are |
| Stories.DirectionMatters | src/components/Stories.tsx:18-24 | without the edge from viewer to author, an edge from author to viewer does not make the author's story visible |
| Stories.MonotoneInFollowers | src/components/Stories.tsx:16-29 | with more follower edges the selection can only grow, with multiplicity; with fewer it can only shrink |
| Stories.UnfollowHidesAuthor | src/components/Stories.tsx:16-29 | once the edge from viewer to another author is removed, none of that author's stories is selected |
| FriendRequest.Incoming | src/components/FriendRequest.tsx:11-14 | each stored request is selected, with its full multiplicity, iff its receiver is the user |
| FriendRequest.Load | src/components/FriendRequest.tsx:8-28 | no result iff nobody is signed in (no id or an empty one) or no stored request is addressed to the user; otherwise a non-empty list that is exactly the filtered requests, each joined with its stored sender |
| FriendRequest.IncomingEmpty | src/components/FriendRequest.tsx:11-19 | the filter finds nothing iff no stored request has the user as receiver |
| FriendRequest.JoinedFromRows | src/components/FriendRequest.tsx:15-17 | every joined request comes from the selected rows with its stored sender, and every selected row appears joined |
| FriendRequest.SentRequestsNotShown | src/components/FriendRequest.tsx:12-14 | a request the user sent to someone else is never among the shown requests |
| StoryList.AvatarOrDefault | src/components/StoryList.tsx:39 | the user's image when it is a non-empty string, otherwise the default avatar; never empty |
| StoryList.Placeholder | src/components/StoryList.tsx:30-41 | the placeholder has a temporary id and the upload URL, is created at `now` and expires one day later, and is authored by `userId` both in the row and in the joined user, shown as "Sending..." with the user's avatar or the default |
| StoryList.HasSecureUrl | src/components/StoryList.tsx:27 | the guard of `add`: there is an upload result whose `secure_url` is a non-empty string |
| StoryList.Optimistic | src/components/StoryList.tsx:30-43 | the optimistic step: the placeholder for the uploaded URL in front of the list, upload result kept |
| StoryList.Settle | src/components/StoryList.tsx:45-51 | the server's answer applied: created story in front and upload result cleared, or nothing changed on failure |
| StoryList.AfterAdd | src/components/StoryList.tsx:26-52 | one whole `add`: unchanged without an upload URL, otherwise the optimistic step followed by the settle step |
| StoryList.OverlappingAdds | src/components/StoryList.tsx:43-48 | two adds whose server calls overlap give both answers in arrival order in front of both placeholders, then the old list, with the upload result cleared |
| StoryList.OptimisticStep | src/components/StoryList.tsx:30-43 | while the server call is pending, the list is the placeholder in front of the old list, every old story in its old order, and the upload result is kept |
| StoryList.AddFromOptimistic | src/components/StoryList.tsx:43-51 | a failed save leaves exactly the optimistic state; a successful one puts the created story in front of it and clears the upload result |
| StoryList.AddWithoutImageIsNoOp | src/components/StoryList.tsx:27 | without an upload URL, `add` leaves the list and the upload result unchanged |
| StoryList.AddKeepsOldStories | src/components/StoryList.tsx:26-52 | the old list survives unchanged as the tail, and the list grows by 0 without an image, 1 on failure and 2 on success |
| StoryList.AddSuccess | src/components/StoryList.tsx:43-48 | on success the list is the created story, then the placeholder, then the old list (the placeholder is not replaced), and the upload result is cleared |
| StoryList.AddFailure | src/components/StoryList.tsx:43-51 | on failure the list is the placeholder in front of the old list and the upload result is kept |
| StoryList.AddAfterSuccessIsNoOp | src/components/StoryList.tsx:27-48 | after a success a further `add` without a new upload changes nothing |
| StoryList.PlaceholderLastsADay | src/components/StoryList.tsx:33-34 | the placeholder passes the stories query of its author exactly until a day after `now`: one minute before that it does, one minute after it does not |
| StoryList.StoryList.constructor | src/components/StoryList.tsx:21-22 | the list starts as the loaded stories and there is no upload result |
| StoryList.StoryList.OnUploadSuccess | src/components/StoryList.tsx:59-60 | the upload result is remembered and the list is unchanged |
| StoryList.StoryList.BeginAdd | src/components/StoryList.tsx:27-43 | reports whether there is an upload URL; if so the state becomes the optimistic one, otherwise nothing changes |
| StoryList.StoryList.FinishAdd | src/components/StoryList.tsx:45-51 | the state becomes the settled one for the server's answer: created story in front and upload cleared, or unchanged |
| StoryList.StoryList.Add | src/components/StoryList.tsx:26-52 | the two steps in order: the new list and upload result are those `AfterAdd` gives for the old ones |

## Left out

- The follow-request accept, reject and cancel transitions and unfollowing: `FriendRequestList` and the server actions module that would implement them are not part of this model.
- Rendering: the JSX, CSS classes, images and links of all three components, and `src/components/Navbar.tsx`, which holds only layout and links.
- Authentication: the signed-in user is an `Option<UserId>` input instead of a call to the provider.
- The upload widget: only its success callback's effect on the upload result is modelled (`OnUploadSuccess`); opening and closing the widget are not.
- The database: only the meaning of the two `where` clauses and of the `include` joins over in-memory rows. The joins assume referential integrity (`Schema.Valid`): every story's author and every request's sender is a stored user. The Prisma schema is not part of this model: `Stories.FollowedByViewer` reads a user's `followers` relation as the follower rows whose `followingId` is that user, the usual shape of such a schema.
- The `addStory` server action: its outcome is an input; persistence and id generation are not modelled. `Created` always carries a story, so the case where the action returns nothing without throwing (the source then prepends `undefined`) is not modelled.
- Random placeholder ids: an abstract temporary id is an input, kept apart from persisted ids by its constructor.
- The clock: one millisecond value `now` stands for both readings in the placeholder, whose two fields may differ by a few milliseconds in the source.
- Asynchrony: `Add` runs its two steps back to back. Separate `BeginAdd` and `FinishAdd` calls may be interleaved, and `FinishAdd` prepends to the list as it is then, as the source's functional updates do (`StoryList.OverlappingAdds` states one such interleaving); React's batching of updates is not modelled.
- The `console.error` logging on failure.
- Ordering of the loaded stories: the query has no `orderBy`, so the model keeps store order and its contracts say nothing about order.
