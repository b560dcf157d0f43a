/** The state of the home page (pages/index.tsx): the posts received from
    the posts route, the search text, the current page, the error shown in
    place of the list, and the three server-side filter inputs. Each React
    state setter is a method; the derived list and page are functions of
    the state. */
module Home {
  import opened Wrappers
  import opened Posts
  import Search
  import Seqs
  import Pagination

  /** The body of a successful response from the posts route. */
  datatype Payload = PostList(posts: seq<Post>) | NotAList

  /** How `fetchPosts` ends: a non-OK response or a thrown error, with the
      message it chose to show, or an OK response with its JSON body. */
  datatype FetchResult = Failed(message: string) | Succeeded(payload: Payload)

  class HomePage {
    /** `documentToPlainTextString`. */
    const plain: Document -> string
    var posts: seq<Post>
    var searchQuery: string
    var currentPage: int
    var error: Option<string>
    var authorFilter: string
    var startDateFilter: string
    var endDateFilter: string

    /** The page shown is always a positive number. */
    ghost predicate Valid()
      reads this
    {
      currentPage >= 1
    }

    constructor (plain: Document -> string)
      ensures Valid()
      ensures this.plain == plain && posts == [] && searchQuery == "" && currentPage == 1 && error == None
      ensures authorFilter == "" && startDateFilter == "" && endDateFilter == ""
    {
      this.plain := plain;
      posts := [];
      searchQuery := "";
      currentPage := 1;
      error := None;
      authorFilter := "";
      startDateFilter := "";
      endDateFilter := "";
    }

    /** `filteredPosts`. */
    function FilteredPosts(): (r: seq<Post>)
      reads this
      ensures forall k :: 0 <= k < |r| ==> r[k] in posts && Search.MatchesSearch(plain, searchQuery, r[k])
      ensures forall k :: 0 <= k < |posts| && Search.MatchesSearch(plain, searchQuery, posts[k]) ==> posts[k] in r
      ensures forall k :: 0 <= k < |posts| ==>
        multiset(r)[posts[k]] == if Search.MatchesSearch(plain, searchQuery, posts[k]) then multiset(posts)[posts[k]] else 0
      ensures Seqs.SubsequenceOf(r, posts)
    {
      Search.SearchPosts(plain, searchQuery, posts)
    }

    /** `totalPages`. */
    function TotalPages(): (t: nat)
      reads this
      ensures t == 0 <==> FilteredPosts() == []
      ensures t * Search.PageSize >= |FilteredPosts()| > (t - 1) * Search.PageSize
    {
      Search.TotalPages(|FilteredPosts()|)
    }

    /** `currentPosts`: what the list shows. */
    function CurrentPosts(): (r: seq<Post>)
      reads this
      ensures |r| <= Search.PageSize
      ensures currentPage >= 1 ==>
        r == FilteredPosts()[Search.Min((currentPage - 1) * Search.PageSize, |FilteredPosts()|)..Search.Min(currentPage * Search.PageSize, |FilteredPosts()|)]
    {
      Search.PageOf(FilteredPosts(), currentPage)
    }

    /** The query parameters `fetchPosts` sends: each filter only when it is
        non-empty, in the order author, startDate, endDate. */
    function QueryParams(): (ps: seq<(string, string)>)
      reads this
      ensures ("author", authorFilter) in ps <==> authorFilter != ""
      ensures ("startDate", startDateFilter) in ps <==> startDateFilter != ""
      ensures ("endDate", endDateFilter) in ps <==> endDateFilter != ""
      ensures |ps| <= 3
      ensures forall p :: p in ps ==>
        p == ("author", authorFilter) || p == ("startDate", startDateFilter) || p == ("endDate", endDateFilter)
    {
      (if authorFilter != "" then [("author", authorFilter)] else [])
      + (if startDateFilter != "" then [("startDate", startDateFilter)] else [])
      + (if endDateFilter != "" then [("endDate", endDateFilter)] else [])
    }

    /** Typing in the search bar: the page is NOT reset. */
    method SetSearchQuery(q: string)
      requires Valid()
      modifies this
      ensures Valid()
      ensures searchQuery == q
      ensures currentPage == old(currentPage) && posts == old(posts) && error == old(error)
      ensures authorFilter == old(authorFilter) && startDateFilter == old(startDateFilter)
      ensures endDateFilter == old(endDateFilter)
    {
      searchQuery := q;
    }

    /** The effect that runs when one of the three filters changes: back to
        page 1 (the fetch it starts is completed by `ReceivePosts`). */
    method FiltersChanged()
      requires Valid()
      modifies this`currentPage
      ensures Valid() && currentPage == 1
    {
      currentPage := 1;
    }

    /** Editing the author filter; the effect runs only if the value changed. */
    method SetAuthorFilter(a: string)
      requires Valid()
      modifies this
      ensures Valid()
      ensures authorFilter == a
      ensures currentPage == if a != old(authorFilter) then 1 else old(currentPage)
      ensures searchQuery == old(searchQuery) && posts == old(posts) && error == old(error)
      ensures startDateFilter == old(startDateFilter) && endDateFilter == old(endDateFilter)
    {
      var changed := a != authorFilter;
      authorFilter := a;
      if changed {
        FiltersChanged();
      }
    }

    method SetStartDateFilter(d: string)
      requires Valid()
      modifies this
      ensures Valid()
      ensures startDateFilter == d
      ensures currentPage == if d != old(startDateFilter) then 1 else old(currentPage)
      ensures searchQuery == old(searchQuery) && posts == old(posts) && error == old(error)
      ensures authorFilter == old(authorFilter) && endDateFilter == old(endDateFilter)
    {
      var changed := d != startDateFilter;
      startDateFilter := d;
      if changed {
        FiltersChanged();
      }
    }

    method SetEndDateFilter(d: string)
      requires Valid()
      modifies this
      ensures Valid()
      ensures endDateFilter == d
      ensures currentPage == if d != old(endDateFilter) then 1 else old(currentPage)
      ensures searchQuery == old(searchQuery) && posts == old(posts) && error == old(error)
      ensures authorFilter == old(authorFilter) && startDateFilter == old(startDateFilter)
    {
      var changed := d != endDateFilter;
      endDateFilter := d;
      if changed {
        FiltersChanged();
      }
    }

    /** The end of `fetchPosts`: a failure sets the error; a success stores
        the body when it is an array and `[]` otherwise, and does not clear
        an earlier error. */
    method ReceivePosts(result: FetchResult)
      requires Valid()
      modifies this`posts, this`error
      ensures Valid()
      ensures result.Failed? ==> error == Some(result.message) && posts == old(posts)
      ensures result.Succeeded? ==> error == old(error)
      ensures result.Succeeded? && result.payload.PostList? ==> posts == result.payload.posts
      ensures result.Succeeded? && result.payload.NotAList? ==> posts == []
    {
      match result
      case Failed(message) =>
        error := Some(message);
      case Succeeded(payload) =>
        posts := if payload.PostList? then payload.posts else [];
    }

    /** A click on Previous; a disabled button does nothing. */
    method ClickPrevious()
      requires Valid()
      modifies this`currentPage
      ensures Valid()
      ensures currentPage == if old(currentPage) == 1 then 1 else old(currentPage) - 1
    {
      var nav := Pagination.Render(currentPage, TotalPages());
      Pagination.EnabledTargetsArePositive(currentPage, TotalPages());
      if !nav.previousDisabled {
        currentPage := nav.previousTarget;
      }
    }

    /** A click on Next; a disabled button does nothing. */
    method ClickNext()
      requires Valid()
      modifies this`currentPage
      ensures Valid()
      ensures currentPage == if old(currentPage) == old(TotalPages()) then old(currentPage) else old(currentPage) + 1
    {
      var nav := Pagination.Render(currentPage, TotalPages());
      Pagination.EnabledTargetsArePositive(currentPage, TotalPages());
      if !nav.nextDisabled {
        currentPage := nav.nextTarget;
      }
    }

    /** A click on the button at position `k` of the page list. */
    method ClickPage(k: nat)
      requires Valid()
      requires k < TotalPages()
      modifies this`currentPage
      ensures Valid()
      ensures currentPage == k + 1
    {
      var nav := Pagination.Render(currentPage, TotalPages());
      Pagination.RenderedBar(currentPage, TotalPages());
      currentPage := nav.buttons[k].page;
    }
  }
}
