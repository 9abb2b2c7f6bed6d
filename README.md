# Feed page synchronisation, modelled in Dafny

This project models the state machine of the `Feed` page component of a
React front end for a posts backend (`src/pages/Feed/Feed.js`). The page
shows one page of posts. It keeps that list in step with two sources: page
loads the viewer asks for (next, previous, reload), and "create", "update"
and "delete" events the backend pushes over a socket. It also runs the edit
session: open the form for a new or an existing post, cancel, submit, and
the success or failure of the submit. Finally it runs the delete flow.

Without React and `fetch`, the component is a record with eight fields:
`posts`, `totalPosts`, `postPage`, `isEditing`, `editPost`, `postsLoading`,
`editLoading` and `error`. In the model this is the class
`FeedState.Feed`. Each handler is a method whose `modifies` clause names
exactly the fields that handler's `setState` calls assign. Each `.then` or
`.catch` body is its own method, applied as one atomic step. A handler that
sends a request returns the request (or, for a page load, the page number to
fetch) instead of sending it. `setState` is an ordinary assignment.

The array computations are functions with lemmas:

- `Records`: the post record, and the three rules that turn a post from the
  backend into a record of the page (first load, pushed create, page load).
- `PostLists`: the searches by id, the front insert, the replace-by-id, the
  page mapping, and the lemmas about them (idempotence, "exactly one record
  per id", unique ids are preserved, wholesale replacement).
- `Paging`: the paginator's last page (`ceil(totalPosts / 2)`) and the page
  cursor rule.
- `Submission`: the multipart request a submit sends, and the delete request.

Behaviour recorded as the code has it:

- "previous" does not clamp the page: from page 1 it goes to page 0
  (`Paging.CursorSpec`).
- The page counter moves before the fetch, so a failed load leaves the
  cursor moved and the list emptied (`FeedState.FailedNavigationKeepsCursor`).
- `imageUrl` is handled one way at first load (line 43: always converted to
  a string, so null becomes `"null"`), another for a pushed create (line 72:
  kept as it is, or null) and a third for a page load (line 123: prefixed
  with the backend base, or null) (`Records.ImageRulesDisagree`).
- Opening an edit for an id that is not on the page stores an empty object
  (`{...undefined}`), which is truthy. A submit then sends a PUT to
  `/feed/post/undefined`, with the image field `"undefined"` when no new
  file is chosen
  (`Records.Snapshot.EmptyCopy`, `FeedState.FailedEditRollsBack`).
- A pushed "update" stores the pushed post as it is. It does not apply any
  of the `imageUrl` or `author` rules.
- After a successful delete the page loader stays on until the reload ends.
  It goes off only when the reload succeeds. A failed reload records the
  error and leaves the loader on.
- Nothing clamps the page number: neither "previous" nor a failed load brings
  it back into range.
- A failed submit clears the edit flags and the snapshot and records the
  error; it changes nothing else, and nothing else changed when the edit
  opened.
- `updatedPosts` (lines 82-93) has the same body as `updatePosts` (lines
  224-235) and nothing calls it, so it is modelled once, as `UpdatePosts`.

## Model

| member | source | states |
|---|---|---|
| `Records.Mounted` | src/pages/Feed/Feed.js:41-44 | the first load copies every field and always stores `imageUrl` as a string: an existing string is kept, null or missing becomes `"null"`/`"undefined"` |
| `Records.Pushed` | src/pages/Feed/Feed.js:70-74 | a pushed create copies every field except two: a non-empty `imageUrl` is kept and anything else becomes null; `author` is the user's name, or `"Unknown"` when there is no user |
| `Records.Loaded` | src/pages/Feed/Feed.js:121-124 | a page load copies every field; a non-empty `imageUrl` gets the backend base prefix and anything else becomes null |
| `Records.ImageRulesDisagree` | src/pages/Feed/Feed.js:41-124 | the three ingest rules disagree: a present image is kept by two rules and prefixed by the third; a missing image is null under two rules and a string under the third |
| `PostLists.HasId` | src/pages/Feed/Feed.js:66 | `some` is true exactly when one of the posts has the id |
| `PostLists.FindIndex` | src/pages/Feed/Feed.js:227 | `findIndex` gives -1 exactly when no record has the id; otherwise the index holds the id and no earlier index does |
| `PostLists.FindPost` | src/pages/Feed/Feed.js:161 | `find` gives nothing exactly when no record has the id; otherwise it gives the record at the first matching index |
| `PostLists.InsertFront` | src/pages/Feed/Feed.js:65-76 | after a pushed create the id is shown; a known id leaves the posts as they were; a new id puts the ingested record at index 0, followed by the old posts in their order |
| `PostLists.DuplicateCreateYieldsOneRecord` | src/pages/Feed/Feed.js:65-67 | the same create delivered twice gives the same posts as one delivery; if the id was new, exactly one record has it |
| `PostLists.InsertFrontKeepsUnique` | src/pages/Feed/Feed.js:65-76 | a front insert keeps the ids of the posts unique |
| `PostLists.ReplaceFirst` | src/pages/Feed/Feed.js:226-230 | an update keeps the length; an unknown id leaves the posts identical; a known id overwrites only the first index with that id and leaves every other index unchanged |
| `PostLists.ReplaceFirstIdempotent` | src/pages/Feed/Feed.js:224-235 | applying the same update twice gives what applying it once gives |
| `PostLists.ReplaceFirstKeepsIds` | src/pages/Feed/Feed.js:224-235 | an update leaves the set of shown ids unchanged and keeps unique ids unique |
| `PostLists.MapMounted` | src/pages/Feed/Feed.js:41-44 | the first load installs exactly one record per fetched item, in fetched order, each ingested by the first-load rule |
| `PostLists.MapLoaded` | src/pages/Feed/Feed.js:121-124 | a page load installs exactly one record per fetched item, in fetched order, each ingested by the page-load rule |
| `PostLists.LoadReplacesWholesale` | src/pages/Feed/Feed.js:120-127 | every record a page load installs comes from a fetched item; a record's id is shown after the load exactly when it was fetched; ids are unique after the load exactly when they were unique in the response |
| `PostLists.UniqueLoadShowsEachIdOnce` | src/pages/Feed/Feed.js:120-127 | after a page load whose response has unique ids, every fetched id is shown exactly once |
| `Paging.LastPage` | src/pages/Feed/Feed.js:331 | the last page is the least page count whose pages of 2 hold all `totalPosts`, that is `ceil(totalPosts / 2)` |
| `Paging.LastPageStep` | src/pages/Feed/Feed.js:331 | one more post (a pushed create) adds at most one page |
| `Paging.CursorAfter` | src/pages/Feed/Feed.js:99-107 | the page is one more exactly for "next", one less exactly for "previous", and the same exactly for any other direction or none |
| `Paging.CursorSpec` | src/pages/Feed/Feed.js:99-107 | "next" and "previous" undo each other; any other direction keeps the page; "previous" from page 1 gives page 0, with no clamp |
| `Submission.SubmitRequest` | src/pages/Feed/Feed.js:176-190 | the form has exactly the fields title, content and image, in that order. The image is the new file if one was chosen; otherwise it is the edited post's image when an edit is open, else `''`. The request is a PUT to `/feed/post/{id}` exactly when an edit snapshot is open, else a POST to `/feed/post` |
| `Submission.DeleteRequest` | src/pages/Feed/Feed.js:244-249 | a delete is a DELETE to `/feed/post/{id}` without a body |
| `FeedState.Feed.constructor` | src/pages/Feed/Feed.js:15-25 | the initial state: not editing, no posts, total 0, no snapshot, page 1, loader on, no edit loader, no error |
| `FeedState.Feed.OnMountLoadSuccess` | src/pages/Feed/Feed.js:39-47 | the first load's items replace the posts (first-load rule); the total becomes `totalItems` and the loader goes off |
| `FeedState.Feed.OnPush` | src/pages/Feed/Feed.js:50-58 | "create" applies the front insert and raises the total only for a new id. "update" applies the replace-by-id and leaves the total alone. "delete" changes nothing and returns the current page for a reload. Any other action changes nothing |
| `FeedState.Feed.AddPost` | src/pages/Feed/Feed.js:64-78 | the posts become the front insert of the pushed post; the total rises by 1 exactly when the id was not shown; no other field changes |
| `FeedState.Feed.UpdatePosts` | src/pages/Feed/Feed.js:224-235 | the posts become a copy in which the first record with the pushed id is overwritten; length and the total are unchanged |
| `FeedState.Feed.LoadPosts` | src/pages/Feed/Feed.js:95-108 | with a direction, the posts are emptied and the loader turned on; with none, neither changes. The cursor moves by the direction rule before the fetch, and the page fetched is the new cursor |
| `FeedState.Feed.OnLoadSuccess` | src/pages/Feed/Feed.js:119-128 | the fetched items replace the posts wholesale (page-load rule); the total becomes `totalItems` and the loader goes off |
| `FeedState.Feed.CatchError` | src/pages/Feed/Feed.js:274-276 | a failed load only records its error |
| `FeedState.Feed.DismissError` | src/pages/Feed/Feed.js:270-272 | only clears the error |
| `FeedState.Feed.NewPost` | src/pages/Feed/Feed.js:155-157 | only opens the edit form; the snapshot is left alone |
| `FeedState.Feed.StartEdit` | src/pages/Feed/Feed.js:159-168 | opens the edit form on a copy of the first post with that id (or an empty copy when there is none); the posts are unchanged |
| `FeedState.Feed.CancelEdit` | src/pages/Feed/Feed.js:170-172 | closes the edit form and drops the snapshot |
| `FeedState.Feed.FinishEdit` | src/pages/Feed/Feed.js:174-190 | turns the edit loader on and builds the submit request one form field at a time; the result equals `SubmitRequest` of the open snapshot |
| `FeedState.Feed.OnSubmitSuccess` | src/pages/Feed/Feed.js:205-211 | closes the form, drops the snapshot and turns the edit loader off; the posts and the total are untouched |
| `FeedState.Feed.OnSubmitFailure` | src/pages/Feed/Feed.js:212-220 | does what success does and also records the error |
| `FeedState.Feed.DeletePost` | src/pages/Feed/Feed.js:242-249 | turns the page loader on and returns the delete request |
| `FeedState.Feed.OnDeleteSuccess` | src/pages/Feed/Feed.js:256-258 | reloads with no direction: posts, loader and cursor are unchanged, and the page fetched is the current one |
| `FeedState.Feed.OnDeleteFailure` | src/pages/Feed/Feed.js:264-267 | only turns the page loader off; the posts are untouched |
| `FeedState.Feed.PaginatorLastPage` | src/pages/Feed/Feed.js:331 | the paginator's last page is the least page count whose pages of 2 hold all of `totalPosts` |
| `FeedState.CreateDeliveredTwice` | src/pages/Feed/Feed.js:50-77 | two deliveries of the same pushed create leave the state of one delivery: the posts are the one front insert, the total rose by at most 1, and the cursor, the page loader, the edit fields and the error are unchanged; a new id is then shown exactly once |
| `FeedState.FailedEditRollsBack` | src/pages/Feed/Feed.js:159-220 | start edit, submit, failure: posts, total, cursor and page loader as before, form closed, no snapshot, no edit loader, error recorded. The request was a PUT to the post's route, or to `/feed/post/undefined` for an id not on the page |
| `FeedState.FailedNavigationKeepsCursor` | src/pages/Feed/Feed.js:95-129 | a failed "next" leaves the cursor moved, the list empty and the loader on, with the error recorded |
| `FeedState.DeleteReloadsCurrentPage` | src/pages/Feed/Feed.js:242-258 | delete success, then reload success: the fetched page replaces the posts, and the cursor stays where it was |
| `FeedState.CreateThenDeleteScenario` | src/pages/Feed/Feed.js:50-58 | with posts of ids 2 and 1 on the page, a pushed create of id 3 puts it in front (three posts); a pushed delete then fetches page 1, and the reload's response of ids 3 and 2 replaces the posts (lines 119-127). The posts are not filtered locally, and the result differs from a local filter because the pushed record was ingested by another rule |

## Left out

- HTTP requests and their status checks: each request is returned as a value, and its outcome comes back as a call of a success or failure method. The `Authorization` header and the backend host in the URLs are not modelled (routes are kept as paths; the image base prefix is kept because it ends up in the stored posts).
- The request the first load sends (lines 28-32) carries no state change and is not modelled; only its continuations are (`OnMountLoadSuccess`, `CatchError`).
- Opening the socket (line 49) is not modelled. Events are delivered by calling `OnPush`, at any time. The code subscribes only after the first load succeeds, and the model does not enforce that ordering.
- `render()`, the JSX components and the CSS: presentation. The paginator's `lastPage` is kept as `Paging.LastPage`.
- `statusUpdateHandler`, `statusInputChangeHandler` and the `status` field: a side-channel request and a text-field setter with no effect on the posts.
- Date formatting with `toLocaleDateString`: depends on the locale.
- React's batching of `setState` and the order in which concurrent responses arrive: each continuation is one atomic step, and any interleaving is a sequence of such calls.
- `console.log` calls and the commented-out local filter of the delete flow.
- Errors are modelled by their message (`string`), not as `Error` objects. An error thrown inside the socket setup lands in the same `.catch` (line 60) and is covered by `CatchError`.
- `PostData.image` is "a file or nothing". A truthy value of another kind, and non-string titles or contents (which `FormData` would turn into strings), are not modelled.
- Ids are strings compared with `===`. Posts without an id are not modelled.
