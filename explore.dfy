/**
 * The public post listing (src/pages/Explore.jsx): one fetch on mount and a
 * case-insensitive search over title, description and content.
 */
module Explore {
  import opened Js
  import opened Text
  import opened Seqs
  import opened Records

  const FetchFailed := "Failed to fetch posts"

  predicate PostMatches(p: Post, query: string) {
    FieldMatches(p.title, query) || FieldMatches(p.description, query) || FieldMatches(p.content, query)
  }

  /** `filteredPosts`: the posts whose title, description or content contains the query, any case. */
  function FilteredPosts(posts: seq<Post>, query: string): (r: seq<Post>)
    ensures IsSubsequence(r, posts)
    ensures forall p :: p in r <==> p in posts && PostMatches(p, query)
    ensures forall p :: multiset(r)[p] == if PostMatches(p, query) then multiset(posts)[p] else 0
  {
    Filter(posts, p => PostMatches(p, query))
  }

  /** The empty query keeps exactly the posts that have at least one of the three fields. */
  lemma EmptyQueryKeepsPostsWithAField(posts: seq<Post>)
    ensures forall p :: p in FilteredPosts(posts, "") <==>
      p in posts && (p.title.Some? || p.description.Some? || p.content.Some?)
  {
    forall p ensures PostMatches(p, "") <==> p.title.Some? || p.description.Some? || p.content.Some? {
      FieldMatchesEmpty(p.title);
      FieldMatchesEmpty(p.description);
      FieldMatchesEmpty(p.content);
    }
  }

  /** When every post has a title, the empty query lists them all, in order. */
  lemma EmptyQueryListsEverything(posts: seq<Post>)
    requires forall i :: 0 <= i < |posts| ==> posts[i].title.Some?
    ensures FilteredPosts(posts, "") == posts
  {
    forall i | 0 <= i < |posts| ensures PostMatches(posts[i], "") {
      FieldMatchesEmpty(posts[i].title);
    }
    FilterKeepsAll(posts, p => PostMatches(p, ""));
  }

  /** The search ignores the case of the query. */
  lemma SearchIgnoresQueryCase(posts: seq<Post>, query: string)
    ensures FilteredPosts(posts, Lower(query)) == FilteredPosts(posts, query)
  {
    forall i | 0 <= i < |posts| ensures PostMatches(posts[i], Lower(query)) == PostMatches(posts[i], query) {
      FieldMatchesLowerQuery(posts[i].title, query);
      FieldMatchesLowerQuery(posts[i].description, query);
      FieldMatchesLowerQuery(posts[i].content, query);
    }
    FilterAgreeing(posts, p => PostMatches(p, Lower(query)), p => PostMatches(p, query));
  }

  /** What the listing area shows. */
  datatype ListingView = Spinner | NoPostsFound | Cards(posts: seq<Post>)

  function ListingOf(isLoading: bool, posts: seq<Post>, query: string): (r: ListingView)
    ensures r == Spinner <==> isLoading
    ensures r == NoPostsFound <==> !isLoading && FilteredPosts(posts, query) == []
    ensures r.Cards? ==> r.posts == FilteredPosts(posts, query) && r.posts != []
  {
    if isLoading then Spinner
    else
      var shown := FilteredPosts(posts, query);
      if shown == [] then NoPostsFound else Cards(shown)
  }

  /** The page's state. */
  class ExplorePage {
    var posts: seq<Post>
    var isLoading: bool
    var error: string
    var searchQuery: string

    constructor ()
      ensures posts == [] && !isLoading && error == "" && searchQuery == ""
    {
      posts := [];
      isLoading := false;
      error := "";
      searchQuery := "";
    }

    /** The listing as rendered. */
    function Listing(): ListingView
      reads this
    {
      ListingOf(isLoading, posts, searchQuery)
    }

    /** The search input's `onChange`. */
    method SetSearchQuery(text: string)
      modifies this`searchQuery
      ensures searchQuery == text
    {
      searchQuery := text;
    }

    /** The mount effect, with `response` the settled `getAllPosts` call. */
    method FetchPosts(response: Outcome<seq<Post>>)
      modifies this`posts, this`isLoading, this`error
      ensures !isLoading
      ensures response.Ok? ==> posts == response.value && error == old(error)
      ensures response.Fail? ==> posts == old(posts) && error == OrElse(MessageOf(response.thrown), FetchFailed)
    {
      isLoading := true;
      match response {
        case Ok(data) =>
          posts := data;
        case Fail(t) =>
          error := OrElse(MessageOf(t), FetchFailed);
      }
      isLoading := false;
    }
  }
}
