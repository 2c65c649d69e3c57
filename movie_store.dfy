/** The movie store (store/movie-store.ts): one slice of application state,
    changed in place by the reducers and by the pending, fulfilled and
    rejected events of the five asynchronous fetches. The reply of a fetch
    is an input; stored ratings are modelled as a copy of the rating map
    that exists only in a browser. */
module MovieStore {
  import opened JsText
  import opened MovieTypes
  import opened MovieApi

  const SearchRejectedMessage := "Failed to search movies"
  const DetailsRejectedMessage := "Failed to fetch movie details"

  /** The whole slice, as a value. */
  datatype MovieState = MovieState(
    movies: seq<Movie>,
    currentMovie: Option<MovieDetails>,
    loading: bool,
    error: Option<string>,
    searchQuery: string,
    totalResults: int,
    currentPage: int,
    filters: Filters,
    userRatings: map<string, int>,
    activeCategory: string,
    currentView: string)

  /** `loadUserRatings()`: the saved ratings in a browser that has some,
      otherwise none. */
  function LoadUserRatings(browser: bool, saved: Option<map<string, int>>): (r: map<string, int>)
    ensures browser && saved.Some? ==> r == saved.value
    ensures !browser || saved.None? ==> r == map[]
  {
    if browser && saved.Some? then saved.value else map[]
  }

  /** The state the store starts from. */
  function InitialState(ratings: map<string, int>): (s: MovieState)
    ensures s.movies == [] && s.currentMovie.None? && !s.loading && s.error.None?
    ensures s.searchQuery == "" && s.totalResults == 0 && s.currentPage == 1
    ensures s.filters == Filters("", "all") && s.userRatings == ratings
    ensures s.activeCategory == "home" && s.currentView == "home"
  {
    MovieState([], None, false, None, "", 0, 1, Filters("", "all"), ratings, "home", "home")
  }

  /** The three browsing categories, each fetched by searching one term of
      its own pool. */
  datatype Category = Trending | TopRated | AwardWinners {
    /** The tag the category sets as active category and current view. */
    function Tag(): string {
      match this
      case Trending => "trending"
      case TopRated => "top-rated"
      case AwardWinners => "award-winners"
    }

    /** The search terms a fetch of the category draws from. */
    function Pool(): (r: seq<string>)
      ensures |r| == 5
      ensures forall i :: 0 <= i < |r| ==> r[i] != ""
      ensures forall i, j :: 0 <= i < j < |r| ==> r[i] != r[j]
    {
      match this
      case Trending => ["Marvel", "Batman", "Star Wars", "Harry Potter", "Fast"]
      case TopRated => ["Godfather", "Shawshank", "Dark Knight", "Pulp Fiction", "Inception"]
      case AwardWinners => ["Oscar", "Academy", "Golden Globe", "Cannes", "Emmy"]
    }

    /** The error a rejected fetch of the category records when the failure
        carries no message. */
    function RejectedMessage(): string {
      match this
      case Trending => "Failed to fetch trending movies"
      case TopRated => "Failed to fetch top rated movies"
      case AwardWinners => "Failed to fetch award winners"
    }
  }

  /** The category a tag names, if any. */
  function CategoryOf(tag: string): (r: Option<Category>)
    ensures r.Some? ==> r.value.Tag() == tag
    ensures tag !in {"trending", "top-rated", "award-winners"} ==> r.None?
  {
    if tag == "trending" then Some(Trending)
    else if tag == "top-rated" then Some(TopRated)
    else if tag == "award-winners" then Some(AwardWinners)
    else None
  }

  /** Every category is found again from its tag: no two share one, and none
      is "home" or "search". */
  lemma CategoryOfTag(c: Category)
    ensures CategoryOf(c.Tag()) == Some(c)
    ensures c.Tag() != "home" && c.Tag() != "search"
  {
  }

  /** `Math.floor(Math.random() * pool.length)`, for `random` in [0, 1). */
  function PickIndex(random: real, size: nat): (i: nat)
    requires 0.0 <= random < 1.0 && size > 0
    ensures i < size
  {
    var x := random * size as real;
    assert x < size as real;
    x.Floor
  }

  /** The parameters a search is dispatched with; an absent page means 1. */
  datatype SearchArgs = SearchArgs(query: string, page: Option<int>, year: Option<string>, kind: Option<string>)

  /** The fetch whose events the store handles. */
  datatype Fetch = SearchFetch | DetailsFetch | CategoryFetch(category: Category)

  /** The payload of `searchMovies`: the client's search, page 1 when none is given. */
  method FetchSearch(apiKey: Option<string>, args: SearchArgs, fetched: Fetched<SearchResponse>)
    returns (ex: Exchange<SearchResponse>)
    ensures ex.request.None? <==> !Truthy(apiKey)
    ensures ex.request.Some? ==>
              ex.request.value.query ==
                [Param(ApiKey, apiKey.value)] + SearchParams(args.query, args.page.GetOr(1), args.year, args.kind)
    ensures ex.request.Some? ==> ex.result == SearchReply(fetched)
    ensures ex.request.None? ==> ex.result == Threw(Some(MissingKeyMessage))
  {
    ex := SearchMovies(apiKey, args.query, args.page.GetOr(1), args.year, args.kind, fetched);
  }

  /** The payload of a category fetch: a search, on page 1 and without year
      or type, for a term of the category's pool picked by `random`. */
  method FetchCategory(apiKey: Option<string>, category: Category, random: real,
                       fetched: Fetched<SearchResponse>)
    returns (term: string, ex: Exchange<SearchResponse>)
    requires 0.0 <= random < 1.0
    ensures term in category.Pool()
    ensures ex.request.None? <==> !Truthy(apiKey)
    ensures ex.request.Some? ==>
              ex.request.value.query ==
                [Param(ApiKey, apiKey.value), Param(SearchText, term), Param(Page, "1")]
    ensures ex.request.Some? ==> ex.result == SearchReply(fetched)
    ensures ex.request.None? ==> ex.result == Threw(Some(MissingKeyMessage))
  {
    var pool := category.Pool();
    term := pool[PickIndex(random, |pool|)];
    ex := SearchMovies(apiKey, term, 1, None, None, fetched);
    if ex.request.Some? {
      assert SearchParams(term, 1, None, None) == [Param(SearchText, term), Param(Page, "1")];
    }
  }

  class Store {
    var movies: seq<Movie>
    var currentMovie: Option<MovieDetails>
    var loading: bool
    var error: Option<string>
    var searchQuery: string
    var totalResults: int
    var currentPage: int
    var filters: Filters
    var userRatings: map<string, int>
    var activeCategory: string
    var currentView: string
    /** Whether the store runs in a browser, where ratings are stored. */
    const browser: bool
    /** The ratings kept in the browser's storage, if any were written. */
    var persisted: Option<map<string, int>>

    function State(): MovieState
      reads this
    {
      MovieState(movies, currentMovie, loading, error, searchQuery, totalResults,
                 currentPage, filters, userRatings, activeCategory, currentView)
    }

    /** Stored ratings, once written, mirror the ones in memory; outside a
        browser nothing is stored; a recorded error is never empty. */
    predicate Valid()
      reads this
    {
      && (browser && persisted.Some? ==> persisted.value == userRatings)
      && (!browser ==> persisted.None?)
      && (error.Some? ==> error.value != "")
    }

    /** The store as created, with the ratings loaded from storage. */
    constructor (browser: bool, saved: Option<map<string, int>>)
      ensures Valid()
      ensures State() == InitialState(LoadUserRatings(browser, saved))
      ensures this.browser == browser && persisted == if browser then saved else None
    {
      movies := [];
      currentMovie := None;
      loading := false;
      error := None;
      searchQuery := "";
      totalResults := 0;
      currentPage := 1;
      filters := Filters("", "all");
      userRatings := LoadUserRatings(browser, saved);
      activeCategory := "home";
      currentView := "home";
      this.browser := browser;
      persisted := if browser then saved else None;
    }

    // -------------------------------------------------------------------
    // Reducers

    /** `setSearchQuery(q)`: the query, and the view "search" for a non-empty
        query (blank included) or "home" for the empty one. */
    method SetSearchQuery(q: string)
      requires Valid()
      modifies this
      ensures Valid() && persisted == old(persisted)
      ensures State() == old(State()).(searchQuery := q, currentView := if q != "" then "search" else "home")
    {
      searchQuery := q;
      currentView := if q != "" then "search" else "home";
    }

    /** `setFilters(p)`: a key present in `p` takes its value; the other keeps its own. */
    method SetFilters(year: Option<string>, kind: Option<string>)
      requires Valid()
      modifies this
      ensures Valid() && persisted == old(persisted)
      ensures State() == old(State()).(filters := Filters(year.GetOr(old(filters.year)), kind.GetOr(old(filters.kind))))
    {
      filters := Filters(year.GetOr(filters.year), kind.GetOr(filters.kind));
    }

    /** `setCurrentPage(n)` */
    method SetCurrentPage(page: int)
      requires Valid()
      modifies this
      ensures Valid() && persisted == old(persisted)
      ensures State() == old(State()).(currentPage := page)
    {
      currentPage := page;
    }

    /** `clearError()` */
    method ClearError()
      requires Valid()
      modifies this
      ensures Valid() && persisted == old(persisted)
      ensures State() == old(State()).(error := None)
    {
      error := None;
    }

    /** `clearCurrentMovie()` */
    method ClearCurrentMovie()
      requires Valid()
      modifies this
      ensures Valid() && persisted == old(persisted)
      ensures State() == old(State()).(currentMovie := None)
    {
      currentMovie := None;
    }

    /** `setUserRating({movieId, rating})`: records the rating, whatever its
        value, and writes the whole map to storage in a browser. */
    method SetUserRating(movieId: string, rating: int)
      requires Valid()
      modifies this
      ensures Valid()
      ensures State() == old(State()).(userRatings := old(userRatings)[movieId := rating])
      ensures userRatings[movieId] == rating
      ensures forall id :: id in old(userRatings) && id != movieId ==> id in userRatings && userRatings[id] == old(userRatings)[id]
      ensures persisted == if browser then Some(userRatings) else None
    {
      userRatings := userRatings[movieId := rating];
      if browser {
        persisted := Some(userRatings);
      }
    }

    /** `setActiveCategory(t)`: the tag becomes active category and current
        view; only "home" also clears the query and the movies. */
    method SetActiveCategory(tag: string)
      requires Valid()
      modifies this
      ensures Valid() && persisted == old(persisted)
      ensures tag == "home" ==>
                State() == old(State()).(activeCategory := tag, currentView := tag, searchQuery := "", movies := [])
      ensures tag != "home" ==>
                State() == old(State()).(activeCategory := tag, currentView := tag)
    {
      activeCategory := tag;
      currentView := tag;
      if tag == "home" {
        searchQuery := "";
        movies := [];
      }
    }

    /** `clearMovies()`: empties the results and the query; view and category stay. */
    method ClearMovies()
      requires Valid()
      modifies this
      ensures Valid() && persisted == old(persisted)
      ensures State() == old(State()).(movies := [], searchQuery := "", totalResults := 0)
    {
      movies := [];
      searchQuery := "";
      totalResults := 0;
    }

    // -------------------------------------------------------------------
    // Fetch events

    /** The pending event of any fetch. */
    method Pending(fetch: Fetch)
      requires Valid()
      modifies this
      ensures Valid() && persisted == old(persisted)
      ensures State() == old(State()).(loading := true, error := None)
    {
      loading := true;
      error := None;
    }

    /** `searchMovies.fulfilled`: the results, their parsed count and the
        search view; the active category stays. */
    method SearchFulfilled(payload: SearchResponse)
      requires Valid()
      modifies this
      ensures Valid() && persisted == old(persisted)
      ensures State() == old(State()).(loading := false, movies := payload.search.GetOr([]),
                                       totalResults := ParseCount(payload.totalResults),
                                       currentView := "search")
    {
      loading := false;
      movies := payload.search.GetOr([]);
      totalResults := ParseCount(payload.totalResults);
      currentView := "search";
    }

    /** `searchMovies.rejected`: the failure's message, or a generic one, and no results. */
    method SearchRejected(message: Option<string>)
      requires Valid()
      modifies this
      ensures Valid() && persisted == old(persisted)
      ensures State() == old(State()).(loading := false, error := Some(OrElse(message, SearchRejectedMessage)),
                                       movies := [], totalResults := 0)
    {
      loading := false;
      error := Some(OrElse(message, SearchRejectedMessage));
      movies := [];
      totalResults := 0;
    }

    /** `fetchMovieDetails.fulfilled`: the details become the current movie;
        the results stay. */
    method DetailsFulfilled(payload: MovieDetails)
      requires Valid()
      modifies this
      ensures Valid() && persisted == old(persisted)
      ensures State() == old(State()).(loading := false, currentMovie := Some(payload))
    {
      loading := false;
      currentMovie := Some(payload);
    }

    /** `fetchMovieDetails.rejected`: the failure's message, or a generic one,
        and no current movie. */
    method DetailsRejected(message: Option<string>)
      requires Valid()
      modifies this
      ensures Valid() && persisted == old(persisted)
      ensures State() == old(State()).(loading := false, error := Some(OrElse(message, DetailsRejectedMessage)),
                                       currentMovie := None)
    {
      loading := false;
      error := Some(OrElse(message, DetailsRejectedMessage));
      currentMovie := None;
    }

    /** The fulfilled event of a category fetch: the results, their parsed
        count, and the category's tag as active category and view. */
    method CategoryFulfilled(category: Category, payload: SearchResponse)
      requires Valid()
      modifies this
      ensures Valid() && persisted == old(persisted)
      ensures State() == old(State()).(loading := false, movies := payload.search.GetOr([]),
                                       totalResults := ParseCount(payload.totalResults),
                                       activeCategory := category.Tag(), currentView := category.Tag())
    {
      var tag := category.Tag();
      loading := false;
      movies := payload.search.GetOr([]);
      totalResults := ParseCount(payload.totalResults);
      activeCategory := tag;
      currentView := tag;
    }

    /** The rejected event of a category fetch: only the loading flag and the
        error change; the previous results stay. */
    method CategoryRejected(category: Category, message: Option<string>)
      requires Valid()
      modifies this
      ensures Valid() && persisted == old(persisted)
      ensures State() == old(State()).(loading := false, error := Some(OrElse(message, category.RejectedMessage())))
    {
      loading := false;
      error := Some(OrElse(message, category.RejectedMessage()));
    }
  }

  /** `dispatch(searchMovies(args))` followed, with no event in between, by
      the search settling. A reply shows its results and their count in the
      search view; "Movie not found!" shows an empty result. A failure, a
      missing key included, records its message and clears the results. */
  method RunSearch(store: Store, apiKey: Option<string>, args: SearchArgs, fetched: Fetched<SearchResponse>)
    returns (ex: Exchange<SearchResponse>)
    requires store.Valid()
    modifies store
    ensures store.Valid() && store.persisted == old(store.persisted)
    ensures ex.request.None? <==> !Truthy(apiKey)
    ensures ex.request.None? ==> ex.result == Threw(Some(MissingKeyMessage))
    ensures ex.request.Some? ==> ex.result == SearchReply(fetched)
    ensures !store.loading
    ensures ex.result.Returned? ==>
              && store.error.None? && store.currentView == "search"
              && store.movies == ex.result.value.search.GetOr([])
              && store.totalResults == ParseCount(ex.result.value.totalResults)
    ensures ex.result.Threw? ==>
              && store.error == Some(OrElse(ex.result.message, SearchRejectedMessage))
              && store.movies == [] && store.totalResults == 0
              && store.currentView == old(store.currentView)
    ensures !Truthy(apiKey) ==> store.error == Some(MissingKeyMessage)
    ensures Truthy(apiKey) && fetched.Delivered? && fetched.data.response == "False"
            && fetched.data.error == Some(NotFoundMessage) ==>
              store.movies == [] && store.totalResults == 0 && store.error.None? && store.currentView == "search"
    ensures && store.searchQuery == old(store.searchQuery) && store.filters == old(store.filters)
            && store.activeCategory == old(store.activeCategory) && store.currentMovie == old(store.currentMovie)
            && store.userRatings == old(store.userRatings) && store.currentPage == old(store.currentPage)
  {
    store.Pending(SearchFetch);
    ex := FetchSearch(apiKey, args, fetched);
    match ex.result {
      case Returned(reply) =>
        ParseCountOfDigits("0", "");
        assert "0" + "" == "0";
        store.SearchFulfilled(reply);
      case Threw(message) =>
        store.SearchRejected(message);
    }
  }

  /** `dispatch(fetchMovieDetails(imdbId))` followed, with no event in
      between, by the lookup settling. A reply becomes the current movie; a
      failure records its message, the API's own one for a "False" reply, and
      leaves no current movie. The results stay either way. */
  method RunDetails(store: Store, apiKey: Option<string>, imdbId: string, fetched: Fetched<MovieDetails>)
    returns (ex: Exchange<MovieDetails>)
    requires store.Valid()
    modifies store
    ensures store.Valid() && store.persisted == old(store.persisted)
    ensures ex == GetMovieDetails(apiKey, imdbId, fetched)
    ensures !store.loading
    ensures ex.result.Returned? ==> store.error.None? && store.currentMovie == Some(ex.result.value)
    ensures ex.result.Threw? ==>
              store.error == Some(OrElse(ex.result.message, DetailsRejectedMessage)) && store.currentMovie.None?
    ensures !Truthy(apiKey) ==> store.error == Some(MissingKeyMessage) && store.currentMovie.None?
    ensures Truthy(apiKey) && fetched.Delivered? && fetched.data.response == "False" && Truthy(fetched.data.error) ==>
              store.error == fetched.data.error && store.currentMovie.None?
    ensures && store.movies == old(store.movies) && store.totalResults == old(store.totalResults)
            && store.searchQuery == old(store.searchQuery) && store.filters == old(store.filters)
            && store.activeCategory == old(store.activeCategory) && store.currentView == old(store.currentView)
            && store.userRatings == old(store.userRatings) && store.currentPage == old(store.currentPage)
  {
    store.Pending(DetailsFetch);
    ex := GetMovieDetails(apiKey, imdbId, fetched);
    match ex.result {
      case Returned(details) =>
        store.DetailsFulfilled(details);
      case Threw(message) =>
        store.DetailsRejected(message);
    }
  }
}
