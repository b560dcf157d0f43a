/** The posts API route (pages/api/posts.ts): the posts fetched from the
    content repository, narrowed by an author filter and then a date-range
    filter. Dates are instants in milliseconds; `NaN` is what `new Date`
    gives for an unparsable string, and every comparison with it is false. */
module Posts {
  import opened Wrappers
  import Seqs
  import opened Text
  import Auth

  /** The rich-text body of a post, as the content repository delivers it. */
  type Document(==)

  datatype Time = At(ms: int) | NaN

  /** A post as the content client maps it; any field may be missing. */
  datatype Post = Post(title: Option<string>, author: Option<string>, date: Time, content: Option<Document>, slug: string)

  /** `a < b` on two `Date` values. */
  predicate Earlier(a: Time, b: Time)
  {
    a.At? && b.At? && a.ms < b.ms
  }

  /** The author test of `filterByAuthor`: an author that is present and
      equal to the query once both are lower-cased. */
  predicate AuthorMatches(query: string, p: Post)
  {
    Truthy(p.author) && Lower(p.author.value) == Lower(query)
  }

  function ByAuthor(query: string): Post -> bool
  {
    p => AuthorMatches(query, p)
  }

  /** `filterByAuthor(posts, authorQuery)`. */
  function FilterByAuthor(posts: seq<Post>, authorQuery: Option<string>): (r: seq<Post>)
    ensures !Truthy(authorQuery) ==> r == posts
    ensures Truthy(authorQuery) ==>
      && (forall k :: 0 <= k < |r| ==> r[k] in posts && AuthorMatches(authorQuery.value, r[k]))
      && (forall k :: 0 <= k < |posts| && AuthorMatches(authorQuery.value, posts[k]) ==> posts[k] in r)
      && (forall k :: 0 <= k < |posts| ==>
            multiset(r)[posts[k]] == if AuthorMatches(authorQuery.value, posts[k]) then multiset(posts)[posts[k]] else 0)
    ensures Seqs.SubsequenceOf(r, posts)
  {
    if !Truthy(authorQuery) then
      // a sequence is a subsequence of itself, being its own unfiltered filter
      Seqs.FilterAll((p: Post) => true, posts);
      posts
    else Seqs.Filter(ByAuthor(authorQuery.value), posts)
  }

  /** The test of `filterByDateRange`: a given bound excludes the posts
      strictly outside it. A bound is `None` when the query parameter is
      absent or empty; a given bound is the instant its string parses to. */
  predicate WithinRange(startDate: Option<Time>, endDate: Option<Time>, p: Post)
  {
    && !(startDate.Some? && Earlier(p.date, startDate.value))
    && !(endDate.Some? && Earlier(endDate.value, p.date))
  }

  function InRange(startDate: Option<Time>, endDate: Option<Time>): Post -> bool
  {
    p => WithinRange(startDate, endDate, p)
  }

  /** `filterByDateRange(posts, startDate, endDate)`. */
  function FilterByDateRange(posts: seq<Post>, startDate: Option<Time>, endDate: Option<Time>): (r: seq<Post>)
    ensures forall k :: 0 <= k < |r| ==> r[k] in posts && WithinRange(startDate, endDate, r[k])
    ensures forall k :: 0 <= k < |posts| && WithinRange(startDate, endDate, posts[k]) ==> posts[k] in r
    ensures forall k :: 0 <= k < |posts| ==>
      multiset(r)[posts[k]] == if WithinRange(startDate, endDate, posts[k]) then multiset(posts)[posts[k]] else 0
    ensures Seqs.SubsequenceOf(r, posts)
  {
    Seqs.Filter(InRange(startDate, endDate), posts)
  }

  /** The query parameters `author`, `startDate`, `endDate`. */
  datatype PostsQuery = PostsQuery(author: Option<string>, startDate: Option<Time>, endDate: Option<Time>)

  datatype PostsResponse = Filtered(posts: seq<Post>) | ServerError(message: string)
  {
    function Status(): int
    {
      if Filtered? then 200 else 500
    }
  }

  const FetchErrorMessage := "Error fetching posts"

  /** The unwrapped `handler`; `fetched` is what `getPosts()` resolved to,
      `None` when it threw. */
  function Handler(fetched: Option<seq<Post>>, q: PostsQuery): (r: PostsResponse)
    ensures r.ServerError? <==> fetched.None?
    ensures r.ServerError? ==> r.message == FetchErrorMessage
    ensures r.Filtered? ==> forall k :: 0 <= k < |r.posts| ==> r.posts[k] in fetched.value && Selected(q, r.posts[k])
    ensures r.Filtered? ==>
      forall k :: 0 <= k < |fetched.value| && Selected(q, fetched.value[k]) ==> fetched.value[k] in r.posts
  {
    if fetched.None? then ServerError(FetchErrorMessage)
    else Filtered(FilterByDateRange(FilterByAuthor(fetched.value, q.author), q.startDate, q.endDate))
  }

  /** The exported route, `withAuth(handler)`. */
  function Route(secret: Option<string>, apiKey: Option<string>, fetched: Option<seq<Post>>, q: PostsQuery): (g: Auth.Gated<PostsResponse>)
    ensures g.Unauthorized? <==> !Auth.Authorized(secret, apiKey)
    ensures g.Handled? ==> g.result == Handler(fetched, q)
    ensures g.Handled? && fetched.Some? ==> g.result.Status() == 200
  {
    Auth.WithAuth(secret, (query: PostsQuery) => Handler(fetched, query), apiKey, q)
  }

  /** Both criteria together: the author test (skipped when no author is
      given) and the date-range test. */
  predicate Selected(q: PostsQuery, p: Post)
  {
    (!Truthy(q.author) || AuthorMatches(q.author.value, p)) && WithinRange(q.startDate, q.endDate, p)
  }

  /** The handler's answer is the one-pass filter by the conjunction of
      both criteria. */
  lemma {:induction false} HandlerIsConjunction(posts: seq<Post>, q: PostsQuery)
    ensures Handler(Some(posts), q) == Filtered(Seqs.Filter((p: Post) => Selected(q, p), posts))
  {
    var both := (p: Post) => Selected(q, p);
    if Truthy(q.author) {
      Seqs.FilterThenFilter(ByAuthor(q.author.value), InRange(q.startDate, q.endDate), both, posts);
    } else {
      var all := (p: Post) => true;
      Seqs.FilterAll(all, posts);
      Seqs.FilterThenFilter(all, InRange(q.startDate, q.endDate), both, posts);
    }
  }

  /** A failure of the content repository is a 500. */
  lemma FetchFailureIsServerError(q: PostsQuery)
    ensures Handler(None, q).Status() == 500
  {
  }

  /** The author match ignores case but is exact: "Jane" selects "jane"
      and not "Janet". */
  lemma AuthorMatchIsExactAndCaseInsensitive(title: Option<string>, date: Time, content: Option<Document>, slug: string)
    ensures AuthorMatches("Jane", Post(title, Some("jane"), date, content, slug))
    ensures !AuthorMatches("Jane", Post(title, Some("Janet"), date, content, slug))
    ensures !AuthorMatches("Jane", Post(title, None, date, content, slug))
  {
  }

  /** Both bounds are inclusive: a post at exactly `startDate` or exactly
      `endDate` is kept, one a millisecond outside either is dropped. */
  lemma BoundsAreInclusive(p: Post, start: int, end: int)
    requires p.date.At?
    ensures p.date.ms == start ==> WithinRange(Some(At(start)), None, p)
    ensures p.date.ms == end ==> WithinRange(None, Some(At(end)), p)
    ensures p.date.ms < start ==> !WithinRange(Some(At(start)), Some(At(end)), p)
    ensures p.date.ms > end ==> !WithinRange(Some(At(start)), Some(At(end)), p)
  {
  }

  /** Without bounds the date filter keeps every post. */
  lemma NoBoundsKeepsAll(posts: seq<Post>)
    ensures FilterByDateRange(posts, None, None) == posts
  {
    Seqs.FilterAll(InRange(None, None), posts);
  }

  /** A post whose date does not parse is never excluded, whatever the bounds. */
  lemma UnparsableDateIsKept(startDate: Option<Time>, endDate: Option<Time>, p: Post)
    requires p.date.NaN?
    ensures WithinRange(startDate, endDate, p)
  {
  }
}
