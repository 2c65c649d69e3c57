# Movie search front end, modelled in Dafny

This project models the core of a movie-search web front end. The front end
talks to the OMDb movie database. It searches titles with optional year and
type filters, browses three curated categories, shows the details of one
title, and keeps the user's star ratings in browser storage. The modelled
parts are:

- **The API client** (`lib/movie-api.ts`): it builds the request URL and turns
  the reply envelope into a value or a thrown error.
- **The store** (`store/movie-store.ts`): one state record, changed in place by
  the reducers and by the pending, fulfilled and rejected events of the five
  fetches.
- **The decision logic of the search bar, the movie grid, the movies page and
  the star rating** (`components/*.tsx`, `app/movies/page.tsx`).

Files, one module each:

- `js_text.dfy` (`JsText`): the JavaScript semantics the core relies on. These
  are values that may be `undefined`, string truthiness and `a || b`,
  `String.prototype.trim` with the whitespace set of section 12.2 and 12.3 of
  ECMA-262, `Number.prototype.toString` on integers, and `parseInt(s) || 0`
  on decimal text.
- `movie_types.dfy` (`MovieTypes`): the records of `types/movie.ts`. Field
  `Type` is called `kind`, because `type` is a keyword.
- `movie_api.dfy` (`MovieApi`): query objects as ordered key/value lists, with
  JavaScript's property assignment and object spread. Also `buildUrl`,
  `searchMovies`, `getMovieDetails` and `getMovieSuggestions`. `fetch` is
  replaced by its outcome, passed in as `Fetched`. A call returns an
  `Exchange`: the request it would have issued, if any, and how the call
  ended.
- `movie_store.dfy` (`MovieStore`): the state as a value (`MovieState`) and the
  store as a class (`Store`) whose methods are the reducers and the fetch
  events. The class keeps an invariant (`Valid`): stored ratings equal the
  ratings in memory, and a recorded error is never empty. The module also
  holds the category term pools and the thunks' payload creators.
- `search_bar.dfy` (`SearchBar`), `movie_grid.dfy` (`MovieGrid`),
  `movies_page.dfy` (`MoviesPage`) and `star_rating.dfy` (`StarRating`): the
  components' handlers and choices. Dispatching a fetch applies its pending
  event to the store and returns what was dispatched. The fetch settles
  later, as an event of its own, so any interleaving of in-flight fetches can
  be expressed. `MoviesPage.RunCategoryClick`, `MovieStore.RunSearch` and
  `MovieStore.RunDetails` follow one dispatch through to its settling.

## Model

| member | source | states |
|---|---|---|
| JsText.OrElse | lib/movie-api.ts:39 | `s`, or else `fallback`, gives the string when it is non-empty, and the fallback when it is absent or empty. With a non-empty fallback the result is never empty. |
| JsText.TrimStart | components/search-bar.tsx:24 | The result is empty exactly when the input is all whitespace; otherwise it starts with a non-whitespace character. |
| JsText.TrimStartSuffix | components/search-bar.tsx:24 | What `trimStart` keeps is a suffix of the input, and everything it drops is whitespace. |
| JsText.TrimEnd | components/search-bar.tsx:24 | The result is a prefix of the input. It is empty exactly when the input is all whitespace; otherwise it ends with a non-whitespace character. |
| JsText.TrimEndPrefix | components/search-bar.tsx:24 | What `trimEnd` keeps is a prefix of the input, and everything it drops is whitespace. |
| JsText.Trim | components/search-bar.tsx:24 | `q.trim()` is empty exactly when `q` is all whitespace; otherwise both of its ends are non-whitespace. |
| JsText.TrimMiddle | components/search-bar.tsx:24 | `q.trim()` is a contiguous part of `q`, and everything before and after it is whitespace. |
| JsText.Digits | lib/movie-api.ts:21 | The decimal text of a natural number is non-empty and made of digits, and it starts with 0 only for 0. |
| JsText.DecimalText | lib/movie-api.ts:21 | `page.toString()` is digits without a leading zero (except "0") for a non-negative page, and a minus sign followed by such digits for a negative one. |
| JsText.DigitsValueOfDigits | lib/movie-api.ts:21 | The digits of `n`, read as a number, give `n` back. |
| JsText.LeadingDigitsOfDigits | store/movie-store.ts:135 | `parseInt` stops at the first non-digit: a digit string followed by other text reads as that digit string. |
| JsText.ParseCount | store/movie-store.ts:135 | `parseInt(s)`, or else 0, is negative only when `s`, after leading whitespace, starts with a minus sign. It is 0 when `s` is blank or, after leading whitespace, starts with neither a digit nor a sign. |
| JsText.ParseCountOfDigits | store/movie-store.ts:135 | `parseInt(ds + rest)`, or else 0, is the value of the digits `ds` when `rest` does not start with a digit. |
| JsText.ParseCountOfNegative | store/movie-store.ts:135 | The same read with a leading minus sign gives the negated value. |
| JsText.ParseCountDecimalText | store/movie-store.ts:135 | An integer's decimal text, followed by text that does not start with a digit, reads back as that integer. In JavaScript this holds for integers below 10^21 in magnitude (see DecimalText under Left out). |
| MovieApi.HasKeyKeys | lib/movie-api.ts:10-13 | A key is present in a query object exactly when it is one of its keys. |
| MovieApi.LookupAt | lib/movie-api.ts:10-13 | In an object whose keys are distinct, each key yields the value stored with it. |
| MovieApi.LookupMissing | lib/movie-api.ts:10-13 | A key that no property carries is absent. |
| MovieApi.Assign | lib/movie-api.ts:24-25 | After `params.k = v`, `k` yields `v`. A key not yet present is appended at the end. The object grows by at most one property. |
| MovieApi.AssignOther | lib/movie-api.ts:24-25 | Assigning one property leaves the lookup of every other key unchanged. |
| MovieApi.AssignKeys | lib/movie-api.ts:24-25 | Assigning keeps the key order: an existing key keeps its place, and a new key goes last. |
| MovieApi.LookupAppendOther | lib/movie-api.ts:24-25 | Appending a property leaves the lookup of every other key unchanged. |
| MovieApi.Spread | lib/movie-api.ts:10-13 | `{...target, ...source}` has at least as many properties as `target`, and at most as many as `target` and `source` together. |
| MovieApi.SpreadKeys | lib/movie-api.ts:10-13 | The keys of `target` come first in `{...target, ...source}`, in their own order. |
| MovieApi.SpreadLookup | lib/movie-api.ts:10-13 | In `{...target, ...source}`, a key of `source` takes the value from `source`; every other key keeps its value from `target`. |
| MovieApi.SpreadFresh | lib/movie-api.ts:10-13 | Spreading properties that the target lacks appends them, in order. |
| MovieApi.BuildUrl | lib/movie-api.ts:5-15 | Throws exactly when the key is missing or empty, with the configuration message. Otherwise it returns a URL on the OMDb endpoint. |
| MovieApi.BuildUrlQuery | lib/movie-api.ts:10-14 | With a key, the query is `apikey` followed by exactly the supplied parameters, in order. |
| MovieApi.SearchParams | lib/movie-api.ts:19-25 | The search object starts with `s` = query and `page` = the page's decimal text, in that order. It has one more property for a non-empty year and one more for a type other than "all". |
| MovieApi.SearchParamsLookup | lib/movie-api.ts:19-25 | The search query holds `s` = query and `page` = the page's decimal text. It holds `y` exactly when the year is non-empty, and `type` exactly when the type is set and not "all". No key repeats, and none is `apikey`. |
| MovieApi.SearchReply | lib/movie-api.ts:30-42 | A "False" reply with "Movie not found!" becomes the empty result (`Search` [], "0", "True"). Any other "False" reply throws its error text or "Failed to fetch movies". Other replies are returned unchanged, and a transport failure is rethrown. |
| MovieApi.SearchMovies | lib/movie-api.ts:17-47 | No request is issued exactly when the key is missing, and then the configuration error is thrown. Otherwise the request is `apikey` plus the search parameters, and the result is the reply check. |
| MovieApi.GetMovieDetails | lib/movie-api.ts:49-63 | The request holds only `apikey` and `i`. Every "False" reply, "Movie not found!" included, throws its error or "Failed to fetch movie details". Otherwise the reply is returned. |
| MovieApi.GetMovieSuggestions | lib/movie-api.ts:65-79 | Never throws, even without a key. The request is `s` = query and `page` = "1". The result is the first `min(5, n)` results in order, or [] on any failure, "False" reply or missing `Search`. |
| MovieStore.LoadUserRatings | store/movie-store.ts:54-60 | The saved ratings in a browser that has some; otherwise the empty map. |
| MovieStore.InitialState | store/movie-store.ts:69-84 | No movies, no current movie, not loading, no error, empty query, count 0 and page 1. The filters are year "" and type "all", the ratings are the loaded ones, and both tags are "home". |
| MovieStore.Category.Pool | store/movie-store.ts:24-47 | Each category draws from five distinct, non-empty search terms. |
| MovieStore.CategoryOf | app/movies/page.tsx:45-55 | Only "trending", "top-rated" and "award-winners" name a category, and the category found carries that tag. |
| MovieStore.CategoryOfTag | app/movies/page.tsx:45-55 | Each category is found again from its tag, and no tag is "home" or "search". |
| MovieStore.PickIndex | store/movie-store.ts:27 | `Math.floor(Math.random() * n)` is a valid index for `random` in [0, 1). |
| MovieStore.FetchSearch | store/movie-store.ts:6-13 | The search thunk calls the client's search, with page 1 when no page is given. |
| MovieStore.FetchCategory | store/movie-store.ts:23-51 | A category fetch searches one term of the category's own pool, on page 1, without year or type. Without a key it issues no request and throws the configuration error. |
| MovieStore.Store.constructor | store/movie-store.ts:69-84 | The store starts in the initial state with the loaded ratings. Storage exists only in a browser, and the invariant holds. |
| MovieStore.Store.SetSearchQuery | store/movie-store.ts:90-93 | Sets the query. The view becomes "search" for any non-empty query, whitespace-only included, and "home" for ""; nothing else changes. |
| MovieStore.Store.SetFilters | store/movie-store.ts:94-96 | Only the filter keys present in the payload change; the other key keeps its value. |
| MovieStore.Store.SetCurrentPage | store/movie-store.ts:97-99 | Sets the page; nothing else changes. |
| MovieStore.Store.ClearError | store/movie-store.ts:100-102 | Clears the error; nothing else changes. |
| MovieStore.Store.ClearCurrentMovie | store/movie-store.ts:103-105 | Clears the current movie; nothing else changes. |
| MovieStore.Store.SetUserRating | store/movie-store.ts:106-110 | Records the rating for the id, with no range check. Every other rating is unchanged, and in a browser the stored map then equals the map in memory. |
| MovieStore.Store.SetActiveCategory | store/movie-store.ts:111-118 | The tag becomes the active category and the view. Only "home" also clears the query and the movies; the count is never touched. |
| MovieStore.Store.ClearMovies | store/movie-store.ts:119-123 | Empties the movies, the query and the count; the view and the category stay. |
| MovieStore.Store.Pending | store/movie-store.ts:128-131 | Every pending event sets loading, clears the error and changes nothing else. |
| MovieStore.Store.SearchFulfilled | store/movie-store.ts:132-137 | Sets the results (or []), their parsed count and the view "search", and stops loading; the active category stays. |
| MovieStore.Store.SearchRejected | store/movie-store.ts:138-143 | Sets the error to the failure's message or "Failed to search movies", with no results and a count of 0. |
| MovieStore.Store.DetailsFulfilled | store/movie-store.ts:149-152 | Replaces the current movie and leaves the results alone. |
| MovieStore.Store.DetailsRejected | store/movie-store.ts:153-157 | Clears the current movie and sets the error to the message or "Failed to fetch movie details". |
| MovieStore.Store.CategoryFulfilled | store/movie-store.ts:163-169 | Sets the results, their parsed count, and the category's tag as both active category and view. |
| MovieStore.Store.CategoryRejected | store/movie-store.ts:170-173 | Changes only loading and the error (message or the category's fallback); the previous results and count stay. |
| MovieStore.RunSearch | store/movie-store.ts:128-143 | After a search is dispatched and settles, loading has stopped. A reply shows its results and parsed count in the search view with no error. "Movie not found!" leaves no movies, a count of 0 and no error. A failure, a missing key included, records its message (or "Failed to search movies") and clears the results. The query, filters, category and current movie stay. |
| MovieStore.RunDetails | store/movie-store.ts:145-157 | After a details lookup is dispatched and settles, loading has stopped. A reply becomes the current movie. A failure records its message and leaves no current movie; a "False" reply records the API's own error text, such as "Incorrect IMDb ID.". The results, query and view stay. |
| SearchBar.CountNonEmpty | components/search-bar.tsx:61 | `filter(Boolean).length` is 0 exactly when all entries are empty, and the full length exactly when none is. |
| SearchBar.ActiveFiltersCount | components/search-bar.tsx:61 | The count is in 0..2. It is 0 exactly when the year is empty and the type is "all" or empty, and 2 exactly when both are set. |
| SearchBar.YearOptions | components/search-bar.tsx:205-213 | 31 options, the first of them "" (any year). |
| SearchBar.YearOptionsCountDown | components/search-bar.tsx:206-209 | Read as numbers, the options after "" are the current year down to the current year − 29, strictly decreasing. |
| SearchBar.Bar.constructor | components/search-bar.tsx:18 | The local query starts as the stored query. |
| SearchBar.Bar.SetLocalQuery | components/search-bar.tsx:86 | Typing changes only the local query. |
| SearchBar.Bar.OnDebouncedQuery | components/search-bar.tsx:23-33 | Dispatches exactly when the debounced query is not blank and differs from the stored one. It first stores the query (view "search"), then searches page 1 with the current filters. Otherwise the store is unchanged. |
| SearchBar.Bar.OnDebouncedChange | components/search-bar.tsx:23-33 | The effect as evidently meant: it searches only when the debounced value changes, and then exactly as `OnDebouncedQuery` does. A render that changes only the stored query or the filters leaves the store unchanged. |
| SearchBar.Bar.HandleClearSearch | components/search-bar.tsx:35-38 | Empties the local and stored query (view "home"). The handler itself dispatches no search; the effect run it causes is `ClearSearchAsWritten`. |
| SearchBar.Bar.ClearSearchAsWritten | components/search-bar.tsx:23-38 | Clearing, then the effect run caused by the changed stored query, then the run once the debounced value settles on "". With a non-blank debounced value the input ends empty but the old query is stored again, searched, and shown in view "search". |
| SearchBar.Bar.ClearSearchIntended | components/search-bar.tsx:23-38 | The same clicks with `OnDebouncedChange`: nothing is searched, and the query stays empty with view "home". |
| SearchBar.Bar.HandleFilterChange | components/search-bar.tsx:40-52 | Sets the one filter. It re-searches exactly when the stored query is not blank, with the new value and the other filter's previous value, which together are the filters now stored. |
| SearchBar.Bar.ClearFilters | components/search-bar.tsx:54-59 | Resets the filters to "" and "all" (count 0). It re-searches with exactly those values exactly when the stored query is not blank. |
| MovieGrid.EmptyContent | components/movie-grid.tsx:119-152 | Unknown views get "No Content Available". The search view's description quotes the query between fixed text. |
| MovieGrid.ResultCountLabel | components/movie-grid.tsx:195 | The badge is non-empty and starts with a digit. |
| MovieGrid.ResultCountLabelReadsBack | components/movie-grid.tsx:195 | The badge's number reads back as the number of movies. The word is "result" exactly for one and "results" otherwise. |
| MovieGrid.SelectBranch | components/movie-grid.tsx:15-205 | Spinner exactly when loading. Otherwise a truthy error shows the error panel, ahead of everything else. Welcome exactly in the home view with a blank query. The empty state, worded by view, exactly when no movies remain. Otherwise the results with their count badge. |
| MovieGrid.WelcomeNeedsBlankQuery | components/movie-grid.tsx:45 | In the home view, the welcome screen stays exactly while the stored query is all whitespace. |
| MoviesPage.HandleNavClick | app/movies/page.tsx:36-41 | "home" leaves the category and view "home", an empty query, no movies and a count of 0. Any other tag sets only the category and the view, so the results stay. The search bar's effect may run afterwards; see `NavHomeAsWritten`. |
| MoviesPage.NavHomeAsWritten | app/movies/page.tsx:36-41 | A "home" click followed by the effect run of the search bar on the same page. With a non-blank input the input's query is stored and searched again, and the view is "search" instead of "home". |
| MoviesPage.NavHomeIntended | app/movies/page.tsx:36-41 | The same click with `OnDebouncedChange`: nothing is searched, and the page shows "home" with an empty query. |
| MoviesPage.HandleCategoryClick | app/movies/page.tsx:43-56 | The tag is set first. Exactly one fetch is dispatched for a known category, and none for any other tag. |
| MoviesPage.RunCategoryClick | app/movies/page.tsx:43-56 | After the click and its fetch settle, the category's tag is active and shown whether the fetch succeeded or failed. A failure keeps the previous results and records a non-empty error; without a key, the configuration error. |
| MoviesPage.GetViewTitle | app/movies/page.tsx:58-71 | A non-empty title exactly for the views "trending", "top-rated", "award-winners" and "search"; null for every other view. |
| MoviesPage.ViewTitles | app/movies/page.tsx:58-71 | Every category view and the search view have a title; "home" has none. |
| StarRating.DisplayRating | components/star-rating.tsx:34 | Read-only shows the rating, whatever the hover. Otherwise a non-zero hover wins, and no hover shows the rating. |
| StarRating.Filled | components/star-rating.tsx:53 | Star `s` is filled exactly when `s` is at most the whole part of the displayed rating. |
| StarRating.LitCount | components/star-rating.tsx:53 | The number of filled stars is at most 5. |
| StarRating.FilledStarsArePrefix | components/star-rating.tsx:53 | Star `s` (1..5) is filled exactly when `s` is at most the displayed rating's whole part, clamped to 0..5. The filled stars are therefore a prefix. |
| StarRating.Stars.constructor | components/star-rating.tsx:20 | No star is hovered at first. |
| StarRating.Stars.Click | components/star-rating.tsx:28-32 | `onRatingChange(star)` is called exactly when the rating is not read-only and a callback is present. |
| StarRating.Stars.MouseEnter | components/star-rating.tsx:43 | An editable rating hovers the star, so exactly the stars up to it are filled; a read-only one does not change. |
| StarRating.Stars.MouseLeave | components/star-rating.tsx:44 | The hover is reset to 0, and the rating itself is shown again. |

## Left out

- Network I/O: `fetch`, `response.json()` and their failures are an input, `Fetched`. A JSON body that does not match the declared records is not modelled.
- Query-string encoding: the percent-encoding done by `URLSearchParams.toString()` and the `?` concatenation are not modelled. A URL is the endpoint plus its ordered parameter list.
- Parameter names: the query keys are a closed set (`Key`), the names the client uses. Arbitrary string keys in a query object are not modelled.
- Local storage: `localStorage` and the JSON (de)serialisation of ratings are modelled as a copy of the rating map. A saved value that fails to parse is not modelled.
- Ratings are whole numbers in the store and exact reals in the star rating. Floating-point rounding and `rating.toFixed(1)` are not modelled.
- JsText.ParseCount: models `parseInt` on decimal text only (leading whitespace, an optional sign, digits). Hexadecimal `0x` prefixes, and values beyond the double-precision range, are not modelled.
- JsText.DecimalText: models `toString` on integers only, written in plain digits whatever their size. JavaScript writes numbers of magnitude 10^21 or more in exponent form ("1e+21", which `parseInt` reads as 1), and integers beyond 2^53 are not exact. A fractional page number is not modelled either.
- Environment inputs: `Math.random()` is a real in [0, 1) passed in, and the current year is an integer passed in.
- Timing: the 500 ms debounce (the `useDebounce` hook is not part of this model) is not modelled. The debounced value is the argument of one run of the effect, and the caller decides when each run happens. In the source the effect runs after every render in which the debounced value, the stored query or the filters changed (components/search-bar.tsx:33). The sequences this causes after clearing the search and after the "home" click are modelled by `ClearSearchAsWritten` and `NavHomeAsWritten`; other interleavings are left to the caller.
- Concurrency: overlapping fetches are expressed only by the order in which the pending, fulfilled and rejected events are applied. Cancellation, timeouts and real concurrency are not modelled.
- Framework: the React and Redux Toolkit machinery (`createAsyncThunk`, `configureStore`, hooks, re-rendering) is not modelled. The component handlers read the store's current values, as they do after a render. `console.error` logging is not modelled.
- Markup: JSX, styling, animation, icons, the focus and filter-panel toggles, and the popular-search buttons are not modelled, except that picking a popular search sets the local query (`SetLocalQuery`).
- Files with nothing to model: `components/theme-toggle.tsx`, `components/loading-spinner.tsx`, `components/movie-skeleton.tsx`, `app/layout.tsx`, `components/providers/redux-provider.tsx`, `components/movie-card.tsx` and `app/movies/[id]/page.tsx`.
- `fetchMovieDetails`: the thunk passes the identifier straight to the client, so it is modelled by `MovieApi.GetMovieDetails`. Its events are `Store.Pending`, `Store.DetailsFulfilled` and `Store.DetailsRejected`, composed by `MovieStore.RunDetails`.

## Findings

| source | as written | input that shows it | evidently intended | confidence | as-written member | corrected member |
|---|---|---|---|---|---|---|
| components/search-bar.tsx:23-38 | The effect also runs when the stored query changes. Clearing the search empties the stored query while the debounced value still holds the old text, so the effect stores and searches that text again. | Type "Batman", let it settle, then click the clear button: the input is empty, the stored query is "Batman" and the view is "search". | Clearing leaves an empty query and the view "home"; only a change of the debounced value searches. | not executed; it assumes `useDebounce` returns the previous value until the delay has passed | SearchBar.Bar.ClearSearchAsWritten | SearchBar.Bar.ClearSearchIntended |
| app/movies/page.tsx:36-41 | The "home" click empties the stored query but not the input of the search bar, which sits on the same page (app/movies/page.tsx:158). The bar's effect then sees a settled, non-blank value that differs from the stored query, and searches it again. | Search "Batman", then click "home": the view becomes "search" with "Batman" stored again, instead of the home screen. | The "home" click shows the home screen with no query. | not executed | MoviesPage.NavHomeAsWritten | MoviesPage.NavHomeIntended |
