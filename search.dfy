/** The derived values of the home page (pages/index.tsx:76-87): the
    client-side search over title and plain-text body, the page count, and
    the slice of matches shown on the current page. */
module Search {
  import opened Wrappers
  import Seqs
  import opened Text
  import opened Posts

  /** Posts per page (`postsPerPage`). */
  const PageSize := 3

  /** The search test: the lower-cased query occurs in the lower-cased title
      or in the lower-cased plain text of the body (`plain` flattens a rich
      document, as `documentToPlainTextString` does; a missing body is ""). */
  predicate MatchesSearch(plain: Document -> string, query: string, p: Post)
  {
    var q := Lower(query);
    var contentText := if p.content.Some? then plain(p.content.value) else "";
    (p.title.Some? && Contains(Lower(p.title.value), q)) || Contains(Lower(contentText), q)
  }

  function Matcher(plain: Document -> string, query: string): Post -> bool
  {
    p => MatchesSearch(plain, query, p)
  }

  /** `filteredPosts`: the matching posts, in their original order. */
  function SearchPosts(plain: Document -> string, query: string, posts: seq<Post>): (r: seq<Post>)
    ensures forall k :: 0 <= k < |r| ==> r[k] in posts && MatchesSearch(plain, query, r[k])
    ensures forall k :: 0 <= k < |posts| && MatchesSearch(plain, query, posts[k]) ==> posts[k] in r
    ensures forall k :: 0 <= k < |posts| ==>
      multiset(r)[posts[k]] == if MatchesSearch(plain, query, posts[k]) then multiset(posts)[posts[k]] else 0
    ensures Seqs.SubsequenceOf(r, posts)
  {
    Seqs.Filter(Matcher(plain, query), posts)
  }

  /** An empty query matches every post, even one without title or body. */
  lemma EmptyQueryMatchesAll(plain: Document -> string, posts: seq<Post>)
    ensures SearchPosts(plain, "", posts) == posts
  {
    forall k | 0 <= k < |posts|
      ensures MatchesSearch(plain, "", posts[k])
    {
      var p := posts[k];
      ContainsEmpty(Lower(if p.content.Some? then plain(p.content.value) else ""));
    }
    Seqs.FilterAll(Matcher(plain, ""), posts);
  }

  /** `Math.ceil(count / postsPerPage)`: the fewest pages of three that hold
      `count` posts. */
  function TotalPages(count: nat): (t: nat)
    ensures t * PageSize >= count
    ensures t > 0 ==> (t - 1) * PageSize < count
  {
    (count + PageSize - 1) / PageSize
  }

  /** How `slice` reads an index: negative counts from the end, and the
      result is clamped to `0..len`. */
  function SliceIndex(i: int, len: nat): (k: nat)
    ensures k <= len
  {
    if i < 0 then (if len + i < 0 then 0 else len + i)
    else if i > len then len
    else i
  }

  /** `s.slice(start, end)`. */
  function Slice<T>(s: seq<T>, start: int, end: int): (r: seq<T>)
    ensures var a, b := SliceIndex(start, |s|), SliceIndex(end, |s|);
      |r| == (if a < b then b - a else 0) && forall k :: 0 <= k < |r| ==> r[k] == s[a + k]
  {
    var a, b := SliceIndex(start, |s|), SliceIndex(end, |s|);
    if a < b then s[a..b] else []
  }

  function Min(a: int, b: int): int
  {
    if a < b then a else b
  }

  /** `currentPosts`: page `page` of the matches, positions
      `(page-1)*3 .. page*3` of `filtered`. */
  function PageOf<T>(filtered: seq<T>, page: int): (r: seq<T>)
    ensures |r| <= PageSize
    ensures page >= 1 ==> r == filtered[Min((page - 1) * PageSize, |filtered|)..Min(page * PageSize, |filtered|)]
  {
    var indexOfLastPost := page * PageSize;
    var indexOfFirstPost := indexOfLastPost - PageSize;
    Slice(filtered, indexOfFirstPost, indexOfLastPost)
  }

  /** Pages 1..n laid end to end. */
  function Pages<T>(filtered: seq<T>, n: nat): seq<T>
  {
    if n == 0 then [] else Pages(filtered, n - 1) + PageOf(filtered, n)
  }

  lemma {:induction false} PagesArePrefix<T>(filtered: seq<T>, n: nat)
    ensures Pages(filtered, n) == filtered[..Min(n * PageSize, |filtered|)]
  {
    if n > 0 {
      PagesArePrefix(filtered, n - 1);
      var a, b := Min((n - 1) * PageSize, |filtered|), Min(n * PageSize, |filtered|);
      assert filtered[..a] + filtered[a..b] == filtered[..b];
    }
  }

  /** The pages 1..totalPages, concatenated in order, are exactly the matches. */
  lemma PagesReproduceMatches<T>(filtered: seq<T>)
    ensures Pages(filtered, TotalPages(|filtered|)) == filtered
  {
    PagesArePrefix(filtered, TotalPages(|filtered|));
  }

  /** A page past the last one is empty. */
  lemma PagePastTheEndIsEmpty<T>(filtered: seq<T>, page: int)
    requires page > TotalPages(|filtered|)
    ensures PageOf(filtered, page) == []
  {
  }

  /** Seven matches make three pages; the first holds the first three
      matches and the third holds only the seventh. */
  lemma SevenMatchesMakeThreePages<T>(filtered: seq<T>)
    requires |filtered| == 7
    ensures TotalPages(|filtered|) == 3
    ensures PageOf(filtered, 1) == filtered[..3]
    ensures PageOf(filtered, 3) == [filtered[6]]
  {
  }

  /** No matches, no pages. */
  lemma NoMatchesNoPages()
    ensures TotalPages(0) == 0
  {
  }
}
