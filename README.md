# CMSphere blog core in Dafny

A model of the parts of the CMSphere blog front end that hold logic. The posts themselves come from an external content repository.

- **Comment API** (`Comments`): a JSON file holds every comment. Each request to the comment route reads the whole collection and then does one of four things: creates (appends), lists by post slug, updates (content and date), or deletes (splices one record out). It then writes the whole collection back. `CommentEndpoint` is a class whose field `file` is the backing file. Its `Handle` method works on a local sequence, step by step as the handler does (push, field assignment, splice). `Handle` is proved against the pure function `Step`, and the lemmas state what `Step` does.
- **API-key gate** (`Auth`): wraps both routes. It compares the `x-api-key` header with the process-wide secret. A mismatch short-circuits with 401; a match delegates to the wrapped handler.
- **Post filters** (`Posts`): the author filter (case-insensitive, exact) and the date-range filter (each bound optional and inclusive), applied one after the other by the posts route.
- **Search and pagination** (`Search`): the client-side substring search over title and plain-text body, `ceil(n/3)` pages, and JavaScript `slice` semantics for the current page.
- **Home page state** (`Home`): a class holding the React state cells (posts, search text, current page, error, filter inputs). Its methods are the setters and the effects; its functions are the derived list and page.
- **Navigation bar** (`Pagination`): the page buttons, the Previous and Next targets, and their disabled flags.
- **Comment edit controls** (`CommentItem`): the `isEditing`/`editedContent` state machine, as a class and as a value-level transition function.

Modelling choices:
- Timestamps are integers. `new Date()` is the parameter `now`.
- An unparsable date is `Time.NaN`; every comparison with it is false.
- Absent request fields, headers and query parameters are `Option.None`. JavaScript truthiness is `Text.Truthy`.
- `writeFileSync` succeeding or failing is the parameter `writeOk`.
- `documentToPlainTextString` is the function parameter `plain` over the abstract type `Posts.Document`.

Behaviour of the code worth knowing:
- New ids are "last stored id + 1", not "max + 1". The two agree while ids increase in storage order (`NextIdIsFresh`).
- Ids are not monotonic over time: deleting the newest comment and creating another reuses its id (`CreateDeleteCreateReusesId`).
- `totalPages` is 0, not 1, when nothing matches. Next is then enabled on page 1 and leads to empty pages (`NextEnabledPastTheEnd`, `PagePastTheEndIsEmpty`).
- When no secret is configured, a request without the header is accepted, because `undefined === undefined`.
- A missing file, text that does not parse, or a falsy JSON value (`null`, `false`, `0`, `""`) reads as the empty collection (`Loaded`), so the next create overwrites the file with a one-record collection. A failed write is swallowed: the response is sent as if it had succeeded (`Persist`).
- PUT rejects the id 0 as missing, but DELETE accepts the query text "0" and looks it up.
- A successful posts fetch does not clear an earlier error.

## Model

| member | source | states |
|---|---|---|
| `Comments.CommentEndpoint.ReadComments` | pages/api/comments.ts:25-36 | an absent or unreadable file reads as the empty collection, otherwise as its contents |
| `Comments.CommentEndpoint.WriteComments` | pages/api/comments.ts:41-47 | the file holds the collection afterwards, or is unchanged when the write fails |
| `Comments.CommentEndpoint.Handle` | pages/api/comments.ts:57-137 | the response and the new file are those of `Step` on the collection just read; strictly increasing ids stay strictly increasing in the file |
| `Comments.CommentEndpoint.Serve` | pages/api/comments.ts:140 | the route as exported: a wrong or missing key gives 401 and leaves the file untouched; a right key behaves as `Handle` |
| `Comments.CommentEndpoint.constructor` | pages/api/comments.ts:19 | the endpoint starts over the given backing file and secret |
| `Comments.Step` | pages/api/comments.ts:57-137 | the handler never answers 401; 405 exactly for a method outside POST, GET, PUT, DELETE; a collection is written exactly when a POST, PUT or DELETE succeeds, one record longer for POST, as long for PUT, one shorter for DELETE |
| `Comments.Route` | pages/api/comments.ts:140 | the exported route answers 401 exactly when the key differs from the secret, and only an accepted request can write |
| `Comments.FirstIndex` | pages/api/comments.ts:103 | `findIndex`: -1 exactly when no record has the id, otherwise the first position holding it |
| `Comments.ForPost` | pages/api/comments.ts:91 | every returned record has the slug and is stored; every stored record with the slug is returned as often as it is stored; storage order is kept |
| `Comments.NextIdIsFresh` | pages/api/comments.ts:72 | with increasing ids, the assigned id exceeds every stored id, so "last + 1" is "max + 1" |
| `Comments.IncreasingIdsAreUnique` | pages/api/comments.ts:72 | strictly increasing ids are pairwise distinct |
| `Comments.StepKeepsIdsIncreasing` | pages/api/comments.ts:72-129 | every collection written by a create, an update or a delete keeps ids strictly increasing |
| `Comments.CreateRequiresAllFields` | pages/api/comments.ts:65-69 | POST with a missing or empty `postSlug`, `author` or `content` is a 400 and writes nothing |
| `Comments.CreateAppends` | pages/api/comments.ts:71-80 | a valid POST answers 201 with a record built from the body, id last + 1 (or 1) and date now, appended after unchanged earlier records |
| `Comments.ListReturnsPostComments` | pages/api/comments.ts:84-93 | GET without a slug is a 400; otherwise exactly the records of that post, each as often as stored, in storage order; nothing is written |
| `Comments.UpdateChangesOnlyContentAndDate` | pages/api/comments.ts:96-113 | PUT with a falsy id or empty content is a 400, an unknown id a 404, both without a write; otherwise only content and date of the first match change, and it is returned |
| `Comments.DeleteRemovesFirstMatch` | pages/api/comments.ts:116-131 | DELETE without an id is a 400; an id no record has is a 404 without a write; otherwise the first match is spliced out and returned, and the collection shrinks by one |
| `Comments.OtherMethodsNotAllowed` | pages/api/comments.ts:134-136 | any other method is a 405 with Allow = POST, GET, PUT, DELETE, and nothing is written |
| `Comments.RejectedRequestWritesNothing` | middleware/auth.ts:15-21 | a request whose key differs from the secret gets 401 and writes nothing |
| `Comments.AcceptedRequestIsHandled` | middleware/auth.ts:24 | a request with the right key gets exactly the handler's effect |
| `Comments.CreatesNumberConsecutively` | pages/api/comments.ts:72 | valid creates on a store with ids 1..m give ids m+1, m+2, ..., whatever post they target |
| `Comments.CreatesFromEmptyNumberFromOne` | pages/api/comments.ts:72 | N valid creates on an empty store yield ids 1..N |
| `Comments.CreateDeleteCreateReusesId` | pages/api/comments.ts:72-128 | deleting a just-created record restores the collection, and the next create reuses its id |
| `Auth.WithAuth` | middleware/auth.ts:9-24 | the wrapped handler runs exactly when the header equals the secret, and its result is returned unchanged; otherwise the 401 message |
| `Auth.MissingHeaderRejected` | middleware/auth.ts:15-18 | with a secret configured, a missing header is rejected |
| `Auth.UnsetSecretAcceptsOnlyMissingHeader` | middleware/auth.ts:6-18 | with no secret configured, a request passes exactly when it has no header |
| `Posts.FilterByAuthor` | pages/api/posts.ts:11-16 | no or empty author query returns the input; otherwise exactly the posts whose present author lower-cases to the lower-cased query, each as often as in the input, in order |
| `Posts.FilterByDateRange` | pages/api/posts.ts:23-34 | exactly the posts not strictly before a given start nor strictly after a given end, each as often as in the input, in order |
| `Posts.Handler` | pages/api/posts.ts:40-58 | a failed fetch is exactly the 500 case, with its message; otherwise every returned post is fetched and meets both criteria, and every fetched post meeting both is returned |
| `Posts.Route` | pages/api/posts.ts:60 | the exported route is 401 exactly when the key differs from the secret; otherwise it is the handler's answer, a 200 when the fetch succeeded |
| `Posts.HandlerIsConjunction` | pages/api/posts.ts:40-50 | the route's answer is one order-preserving filter by the AND of both criteria |
| `Posts.FetchFailureIsServerError` | pages/api/posts.ts:54-57 | a failure to fetch posts is a 500 |
| `Posts.AuthorMatchIsExactAndCaseInsensitive` | pages/api/posts.ts:13-15 | "Jane" selects "jane", not "Janet", and not a post without an author |
| `Posts.BoundsAreInclusive` | pages/api/posts.ts:26-31 | a post at exactly the start or end is kept; one strictly outside either is dropped |
| `Posts.NoBoundsKeepsAll` | pages/api/posts.ts:24-33 | without bounds the date filter returns its input |
| `Posts.UnparsableDateIsKept` | pages/api/posts.ts:25-31 | a post whose date is NaN is kept whatever the bounds |
| `Text.Lower` | pages/api/posts.ts:14 | `toLowerCase` on ASCII: same length, each character lower-cased on its own |
| `Text.Contains` | pages/index.tsx:77-79 | `includes` holds exactly when the query occurs at some position |
| `Text.ContainsEmpty` | pages/index.tsx:77-79 | every string includes the empty string |
| `Search.SearchPosts` | pages/index.tsx:76-81 | exactly the posts whose lower-cased title or plain-text body contains the lower-cased query, each as often as in the input, in order |
| `Search.EmptyQueryMatchesAll` | pages/index.tsx:76-81 | an empty query keeps every post |
| `Search.TotalPages` | pages/index.tsx:84 | the fewest pages of three that hold all matches (0 for no matches) |
| `Search.Slice` | pages/index.tsx:87 | `slice(start, end)`: both indices read with negative-from-the-end and clamping; the result is the elements between them, empty when start is not before end |
| `Search.PageOf` | pages/index.tsx:85-87 | page p is positions (p-1)*3 .. p*3 of the matches, clamped, and never more than three posts |
| `Search.PagesArePrefix` | pages/index.tsx:85-87 | pages 1..n laid end to end are the first 3n matches |
| `Search.PagesReproduceMatches` | pages/index.tsx:84-87 | pages 1..totalPages concatenated are exactly the matches |
| `Search.PagePastTheEndIsEmpty` | pages/index.tsx:84-87 | a page beyond totalPages shows nothing |
| `Search.SevenMatchesMakeThreePages` | pages/index.tsx:84-87 | 7 matches give 3 pages; page 1 is the first three and page 3 only the seventh |
| `Search.NoMatchesNoPages` | pages/index.tsx:84 | no matches give 0 pages |
| `Home.HomePage.constructor` | pages/index.tsx:11-25 | no posts, empty search and filters, page 1, no error |
| `Home.HomePage.FilteredPosts` | pages/index.tsx:76-81 | every listed post is a received post matching the search text, and every matching received post is listed, as often as received and in received order |
| `Home.HomePage.TotalPages` | pages/index.tsx:84 | 0 exactly when nothing matches; otherwise the fewest pages of three that hold the matches |
| `Home.HomePage.CurrentPosts` | pages/index.tsx:83-87 | the posts shown are the current page of the search result, at most three |
| `Home.HomePage.QueryParams` | pages/index.tsx:34-37 | each filter is sent exactly when it is non-empty, and nothing else is sent |
| `Home.HomePage.SetSearchQuery` | pages/index.tsx:13 | changing the search text leaves the current page as it was |
| `Home.HomePage.FiltersChanged` | pages/index.tsx:69-73 | the filter effect resets the current page to 1 |
| `Home.HomePage.SetAuthorFilter` | pages/index.tsx:69-73 | a changed author filter resets the page to 1; an unchanged one does not re-run the effect |
| `Home.HomePage.SetStartDateFilter` | pages/index.tsx:69-73 | a changed start date resets the page to 1 |
| `Home.HomePage.SetEndDateFilter` | pages/index.tsx:69-73 | a changed end date resets the page to 1 |
| `Home.HomePage.ReceivePosts` | pages/index.tsx:47-64 | a failure sets the error and keeps the posts; success stores an array body, or [] for any other body, and keeps the error |
| `Home.HomePage.ClickPrevious` | components/Pagination.tsx:14-19 | Previous moves one page back except on page 1, so the page stays >= 1 |
| `Home.HomePage.ClickNext` | components/Pagination.tsx:33-38 | Next moves one page on except on page totalPages |
| `Home.HomePage.ClickPage` | components/Pagination.tsx:21-24 | the k-th page button requests page k+1 |
| `Pagination.PageNumbers` | components/Pagination.tsx:9 | the page list is 1..totalPages in ascending order |
| `Pagination.Render` | components/Pagination.tsx:7-40 | one button per page |
| `Pagination.RenderedBar` | components/Pagination.tsx:9-35 | buttons 1..totalPages; Previous requests page-1 and is disabled exactly on page 1; Next requests page+1 and is disabled exactly on page totalPages |
| `Pagination.OnlyCurrentPageIsBold` | components/Pagination.tsx:26 | a button is bold exactly when it is the current page; at most one is, and one is when the page is in range |
| `Pagination.EnabledTargetsArePositive` | components/Pagination.tsx:15-35 | from a page >= 1 every enabled button requests a page >= 1 |
| `Pagination.NextEnabledPastTheEnd` | components/Pagination.tsx:35 | with no pages there are no buttons and Next is enabled on page 1; past the last page Next is never disabled |
| `CommentItem.CommentItem.constructor` | components/CommentItem.tsx:15-16 | not editing, and the draft equals the content |
| `CommentItem.CommentItem.ClickEdit` | components/CommentItem.tsx:75 | enters editing mode, draft unchanged |
| `CommentItem.CommentItem.TypeDraft` | components/CommentItem.tsx:53 | typing changes only the draft |
| `CommentItem.CommentItem.ClickSave` | components/CommentItem.tsx:19-22 | reports (id, draft) to `onUpdate` and leaves editing mode |
| `CommentItem.CommentItem.ClickCancel` | components/CommentItem.tsx:59-63 | leaves editing mode and resets the draft to the content, without reporting an update |
| `CommentItem.CommentItem.ClickDelete` | components/CommentItem.tsx:79 | reports id to `onDelete`; it modifies nothing, so the state is unchanged |
| `CommentItem.CommentItem.Rerender` | components/CommentItem.tsx:16 | a new content prop leaves the editing state and draft as they were |
| `CommentItem.DraftIsContentOrTyped` | components/CommentItem.tsx:15-63 | the draft only ever holds its initial text, the content, or a typed text |
| `CommentItem.EditingIffEditedLast` | components/CommentItem.tsx:15-85 | from the initial state the item is editing exactly when an Edit came after the last Save or Cancel |
| `CommentItem.RunTracksEditing` | components/CommentItem.tsx:19-75 | the editing flag after any run of actions is determined by the actions alone |

## Left out

- File I/O and JSON (de)serialisation of the comment file: the file is the abstract `StoreFile`. A failed write leaves it unchanged, so a partially written file is not modelled. The `console.error` logging of a failed read or write (pages/api/comments.ts:33, :45) and of a failed fetch (pages/api/posts.ts:55, pages/index.tsx:63) is not modelled either.
- Date parsing, ISO strings and the clock: timestamps are integers and "now" is a parameter. A date-only `endDate` parsing to midnight is therefore not visible.
- Text.Lower: lower-cases ASCII letters only, one character at a time. Its length-preserving contract therefore holds for the model and not for `toLowerCase` on all of Unicode ("İ" grows). `Posts.FilterByAuthor` and `Search.SearchPosts` inherit this restriction: a non-ASCII name or query that differs only in case does not match.
- `documentToPlainTextString`: the parameter `plain`, not interpreted.
- lib/contentful.ts is not part of this model: the fetched posts are an input, and newest-first order is not assumed.
- `fetch` and the text of error messages on the home page: a fetch outcome arrives as a `FetchResult` carrying its message. Which query parameters are sent is modelled (`Home.HomePage.QueryParams`); the URL string itself is not.
- A comment file holding a truthy JSON value that is not an array (such as `{}`): `readComments` returns it as is, and `push`, `filter` or `findIndex` then throws, so a POST, GET, PUT or DELETE that passes its validation throws at `push`, `filter` or `findIndex` and ends in a 500 without a write. The 400 and 405 answers are unaffected. `StoreFile` has no such case, so the model does not capture that 500.
- Presentational components and the show/hide filters toggle: they hold no logic.
- Concurrency: the lost update between overlapping read-modify-write requests, and fetch results arriving out of order.
- Comments.StepKeepsIdsIncreasing: ids are unbounded integers, while the source's are JavaScript numbers. `last id + 1` stops growing at 2^53, so a file whose last id is 2^53 would get a duplicate id from the next create. In the source the invariant holds only below 2^53. A file written only through this API never gets there, because each create adds one to the last id. The same applies to `Comments.CommentEndpoint.Handle` and `Comments.NextId`.
- JavaScript dynamic typing: ids are integers. A string id in a PUT body (never `===` to a stored id, so a 404), array-valued headers or query parameters, and an undefined method name are not modelled.
- CommentItem.Run: the value-level state machine keeps the content prop fixed; re-rendering with a new prop is modelled only by the class method `Rerender`.
- Pagination.Render: its own contract states only the button count; the targets, flags and bold marks are stated by `RenderedBar` and `OnlyCurrentPageIsBold`.
