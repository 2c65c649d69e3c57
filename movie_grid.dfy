/** The choice the movie grid (components/movie-grid.tsx) makes from the
    store's state: the spinner, the error panel, the welcome screen, an
    empty state worded by view, or the results with their count. */
module MovieGrid {
  import opened JsText
  import opened MovieTypes
  import opened MovieStore

  /** What the grid renders. */
  datatype Branch =
    | Spinner
    | ErrorPanel(message: string)
    | Welcome
    | EmptyState(title: string, description: string, searchHints: bool)
    | Results(badge: string, movies: seq<Movie>)

  const NoContentTitle := "No Content Available"
  const SearchDescriptionStart := "We couldn't find any movies matching \""
  const SearchDescriptionEnd := "\". Try adjusting your search terms or filters."

  /** The views the page names: the three categories and the search. */
  predicate KnownView(view: string) {
    view == "trending" || view == "top-rated" || view == "award-winners" || view == "search"
  }

  /** The title and description of the empty state for a view; the search
      view's description quotes the query. */
  function EmptyContent(view: string, query: string): (r: (string, string))
    ensures r.0 == NoContentTitle <==> !KnownView(view)
    ensures view == "search" ==> r.1 == SearchDescriptionStart + query + SearchDescriptionEnd
  {
    if view == "trending" then
      ("No Trending Movies Found", "Unable to load trending movies at the moment. Please try again later.")
    else if view == "top-rated" then
      ("No Top Rated Movies Found", "Unable to load top rated movies at the moment. Please try again later.")
    else if view == "award-winners" then
      ("No Award Winners Found", "Unable to load award-winning movies at the moment. Please try again later.")
    else if view == "search" then
      ("No Results Found", SearchDescriptionStart + query + SearchDescriptionEnd)
    else
      (NoContentTitle, "No content available for this section.")
  }

  /** `${n} ${n === 1 ? 'result' : 'results'}` */
  function ResultCountLabel(n: nat): (r: string)
    ensures |r| > 0 && IsDigit(r[0])
  {
    DecimalText(n) + (if n == 1 then " result" else " results")
  }

  /** The badge begins with the count, which reads back as the number of
      movies, and uses the singular exactly for one. */
  lemma ResultCountLabelReadsBack(n: nat)
    ensures ParseCount(ResultCountLabel(n)) == n
    ensures ResultCountLabel(n)[|DecimalText(n)|..] == if n == 1 then " result" else " results"
  {
    var word := if n == 1 then " result" else " results";
    assert word[0] == ' ';
    ParseCountDecimalText(n, word);
  }

  /** The branch the grid renders for a state. */
  function SelectBranch(s: MovieState): (r: Branch)
    ensures s.loading <==> r == Spinner
    ensures r.ErrorPanel? <==> !s.loading && Truthy(s.error)
    ensures r.ErrorPanel? ==> r.message == s.error.value
    ensures r == Welcome <==> !s.loading && !Truthy(s.error) && s.currentView == "home" && IsBlank(s.searchQuery)
    ensures r.EmptyState? <==>
              !s.loading && !Truthy(s.error) && !(s.currentView == "home" && IsBlank(s.searchQuery)) && s.movies == []
    ensures r.EmptyState? ==>
              (r.title, r.description) == EmptyContent(s.currentView, s.searchQuery)
              && (r.searchHints <==> s.currentView == "search")
    ensures r.Results? ==> r.movies == s.movies && r.movies != [] && r.badge == ResultCountLabel(|s.movies|)
  {
    if s.loading then Spinner
    else if Truthy(s.error) then ErrorPanel(s.error.value)
    else if s.currentView == "home" && IsBlank(s.searchQuery) then Welcome
    else if |s.movies| == 0 then
      var content := EmptyContent(s.currentView, s.searchQuery);
      EmptyState(content.0, content.1, s.currentView == "search")
    else Results(ResultCountLabel(|s.movies|), s.movies)
  }

  /** In the home view with a query that is only whitespace the welcome
      screen stays, and a stored query of text leaves it. */
  lemma WelcomeNeedsBlankQuery(s: MovieState)
    requires !s.loading && s.error.None? && s.currentView == "home"
    ensures SelectBranch(s) == Welcome <==> AllWhitespace(s.searchQuery)
  {
  }
}
