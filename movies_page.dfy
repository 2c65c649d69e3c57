/** The movies page (app/movies/page.tsx): the navigation and category
    buttons, which dispatch to the store, and the title shown above the grid. */
module MoviesPage {
  import opened JsText
  import opened MovieTypes
  import opened MovieApi
  import opened MovieStore
  import opened MovieGrid
  import opened SearchBar

  /** `handleNavClick(tag)`: the tag becomes active category and view; "home"
      also clears the query, the results and their count. Any other tag
      leaves the results as they were. */
  method HandleNavClick(store: Store, tag: string)
    requires store.Valid()
    modifies store
    ensures store.Valid() && store.persisted == old(store.persisted)
    ensures tag == "home" ==>
              store.State() == old(store.State()).(activeCategory := "home", currentView := "home",
                                                   searchQuery := "", movies := [], totalResults := 0)
    ensures tag != "home" ==>
              store.State() == old(store.State()).(activeCategory := tag, currentView := tag)
  {
    store.SetActiveCategory(tag);
    if tag == "home" {
      store.ClearMovies();
    }
  }

  /** A click on "home" as the page is written, with the search bar on the
      same page and its input settled on `bar.localQuery`. The click empties
      the stored query but not the input, so the bar's effect runs again and,
      when the input is not blank, searches it once more: the view becomes
      "search" instead of "home". */
  method NavHomeAsWritten(bar: Bar) returns (dispatched: Option<SearchArgs>)
    requires bar.store.Valid()
    modifies bar.store
    ensures bar.store.Valid() && bar.store.persisted == old(bar.store.persisted)
    ensures bar.localQuery == old(bar.localQuery)
    ensures dispatched.Some? <==> !IsBlank(bar.localQuery)
    ensures dispatched.Some? ==>
              bar.store.State() == old(bar.store.State()).(activeCategory := "home", currentView := "search",
                                                           searchQuery := bar.localQuery, movies := [],
                                                           totalResults := 0, loading := true, error := None)
    ensures dispatched.None? ==>
              bar.store.State() == old(bar.store.State()).(activeCategory := "home", currentView := "home",
                                                           searchQuery := "", movies := [], totalResults := 0)
  {
    HandleNavClick(bar.store, "home");
    dispatched := bar.OnDebouncedQuery(bar.localQuery);
  }

  /** The same click with the bar's effect run only when its debounced value
      changes: nothing is searched and the page shows "home" with no query. */
  method NavHomeIntended(bar: Bar) returns (dispatched: Option<SearchArgs>)
    requires bar.store.Valid()
    modifies bar.store
    ensures bar.store.Valid() && bar.store.persisted == old(bar.store.persisted)
    ensures dispatched.None?
    ensures bar.store.State() == old(bar.store.State()).(activeCategory := "home", currentView := "home",
                                                         searchQuery := "", movies := [], totalResults := 0)
  {
    HandleNavClick(bar.store, "home");
    dispatched := bar.OnDebouncedChange(bar.localQuery, bar.localQuery);
  }

  /** `handleCategoryClick(tag)`: the tag becomes active category and view
      first; a known category's fetch is then dispatched (its pending event
      applied and the category returned), and any other tag dispatches nothing. */
  method HandleCategoryClick(store: Store, tag: string) returns (dispatched: Option<Category>)
    requires store.Valid()
    modifies store
    ensures store.Valid() && store.persisted == old(store.persisted)
    ensures dispatched == CategoryOf(tag)
    ensures dispatched.Some? ==>
              store.State() == old(store.State()).(activeCategory := tag, currentView := tag,
                                                   loading := true, error := None)
    ensures dispatched.None? && tag != "home" ==>
              store.State() == old(store.State()).(activeCategory := tag, currentView := tag)
    ensures dispatched.None? && tag == "home" ==>
              store.State() == old(store.State()).(activeCategory := tag, currentView := tag,
                                                   searchQuery := "", movies := [])
  {
    store.SetActiveCategory(tag);
    dispatched := CategoryOf(tag);
    if dispatched.Some? {
      store.Pending(CategoryFetch(dispatched.value));
    }
  }

  /** A click on a category button followed, with no event in between, by
      its fetch settling: the category's tag is active and shown whether the
      fetch succeeded or not; a success shows the new results, a failure
      keeps the previous ones and records a non-empty error. */
  method RunCategoryClick(store: Store, category: Category, apiKey: Option<string>, random: real,
                          fetched: Fetched<SearchResponse>)
    returns (term: string, ex: Exchange<SearchResponse>)
    requires store.Valid()
    requires 0.0 <= random < 1.0
    modifies store
    ensures store.Valid() && store.persisted == old(store.persisted)
    ensures term in category.Pool()
    ensures !store.loading
    ensures store.activeCategory == category.Tag() && store.currentView == category.Tag()
    ensures ex.result.Returned? ==>
              store.error.None? && store.movies == ex.result.value.search.GetOr([])
              && store.totalResults == ParseCount(ex.result.value.totalResults)
    ensures ex.result.Threw? ==>
              store.error.Some? && store.error.value != ""
              && store.movies == old(store.movies) && store.totalResults == old(store.totalResults)
    ensures !Truthy(apiKey) ==> store.error == Some(MissingKeyMessage)
    ensures store.searchQuery == old(store.searchQuery) && store.filters == old(store.filters)
  {
    CategoryOfTag(category);
    var dispatched := HandleCategoryClick(store, category.Tag());
    term, ex := FetchCategory(apiKey, category, random, fetched);
    match ex.result {
      case Returned(reply) =>
        store.CategoryFulfilled(category, reply);
      case Threw(message) =>
        store.CategoryRejected(category, message);
    }
  }

  /** `getViewTitle()`: a fixed title for the three category views and the
      search view, and no title for any other view. */
  function GetViewTitle(view: string): (r: Option<string>)
    ensures r.None? <==> !KnownView(view)
    ensures r.Some? ==> r.value != ""
  {
    if view == "trending" then Some("Trending Now")
    else if view == "top-rated" then Some("Top Rated Movies")
    else if view == "award-winners" then Some("Award Winners")
    else if view == "search" then Some("Search Results")
    else None
  }

  /** Every view a category fetch or a search leaves behind has a title;
      "home" has none. */
  lemma ViewTitles(c: Category)
    ensures GetViewTitle(c.Tag()).Some? && GetViewTitle("search").Some?
    ensures GetViewTitle("home").None?
  {
  }
}
