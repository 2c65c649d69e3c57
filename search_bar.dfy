/** The search bar (components/search-bar.tsx): a local query that the user
    types, a debounced effect that turns it into a search, the filter
    handlers, the active-filter badge count and the list of year options.
    The debounced value and the current year are inputs; a dispatched
    search is applied to the store as its pending event and returned, since
    it settles later as an event of its own. */
module SearchBar {
  import opened JsText
  import opened MovieTypes
  import opened MovieStore

  /** The two filters a select can change. */
  datatype FilterKey = Year | Type

  /** How many years the year select offers besides "Any year". */
  const YearCount := 30

  /** `[filters.year, filters.type !== 'all' ? filters.type : ''].filter(Boolean).length` */
  function ActiveFiltersCount(filters: Filters): (n: nat)
    ensures n <= 2
    ensures n == 0 <==> filters.year == "" && (filters.kind == "all" || filters.kind == "")
    ensures n == 2 <==> filters.year != "" && filters.kind != "all" && filters.kind != ""
  {
    CountNonEmpty([filters.year, if filters.kind != "all" then filters.kind else ""])
  }

  /** `xs.filter(Boolean).length` on strings. */
  function CountNonEmpty(xs: seq<string>): (n: nat)
    ensures n <= |xs|
    ensures n == 0 <==> forall i :: 0 <= i < |xs| ==> xs[i] == ""
    ensures n == |xs| <==> forall i :: 0 <= i < |xs| ==> xs[i] != ""
  {
    if xs == [] then 0
    else (if xs[0] != "" then 1 else 0) + CountNonEmpty(xs[1..])
  }

  /** The values of the year select: "" for any year, then the decimal text
      of the current year and of each of the 29 years before it. */
  function YearOptions(currentYear: int): (r: seq<string>)
    ensures |r| == YearCount + 1 && r[0] == ""
  {
    [""] + seq(YearCount, i => DecimalText(currentYear - i))
  }

  /** Read back as numbers, the year options after "" count down one by one
      from the current year, so they are strictly decreasing and distinct. */
  lemma YearOptionsCountDown(currentYear: int)
    ensures var r := YearOptions(currentYear);
      && (forall i :: 1 <= i < |r| ==> ParseCount(r[i]) == currentYear - (i - 1))
      && (forall i, j :: 1 <= i < j < |r| ==> ParseCount(r[i]) > ParseCount(r[j]))
  {
    var r := YearOptions(currentYear);
    forall i | 1 <= i < |r|
      ensures ParseCount(r[i]) == currentYear - (i - 1)
    {
      ParseCountDecimalText(currentYear - (i - 1), "");
      assert r[i] + "" == r[i];
    }
  }

  class Bar {
    /** What the input shows. */
    var localQuery: string
    const store: Store

    /** The bar starts with the query the store holds. */
    constructor (store: Store)
      ensures this.store == store && localQuery == store.searchQuery
    {
      this.store := store;
      localQuery := store.searchQuery;
    }

    /** Typing in the input, or picking a popular search: only the local query changes. */
    method SetLocalQuery(text: string)
      modifies this
      ensures localQuery == text
    {
      localQuery := text;
    }

    /** One run of the debounced effect with the settled value of the local
        query: a query that is not blank and differs from the stored one
        becomes the stored query and is searched on page 1 with the current
        filters. After a search the stored query equals the value, so a second
        run with the same value does nothing. */
    method OnDebouncedQuery(debounced: string) returns (dispatched: Option<SearchArgs>)
      requires store.Valid()
      modifies store
      ensures store.Valid() && store.persisted == old(store.persisted)
      ensures dispatched.Some? <==> !IsBlank(debounced) && debounced != old(store.searchQuery)
      ensures dispatched.Some? ==>
                dispatched.value == SearchArgs(debounced, Some(1), Some(old(store.filters.year)), Some(old(store.filters.kind)))
      ensures dispatched.Some? ==>
                store.State() == old(store.State()).(searchQuery := debounced, currentView := "search",
                                                     loading := true, error := None)
      ensures dispatched.None? ==> store.State() == old(store.State())
    {
      if !IsBlank(debounced) && debounced != store.searchQuery {
        store.SetSearchQuery(debounced);
        dispatched := Some(SearchArgs(debounced, Some(1), Some(store.filters.year), Some(store.filters.kind)));
        store.Pending(SearchFetch);
      } else {
        dispatched := None;
      }
    }

    /** One run of the effect as it is evidently meant to behave: only a
        change of the debounced value, from `previous` to `debounced`, runs
        the search; a render that changes only the stored query or the
        filters does nothing. */
    method OnDebouncedChange(previous: string, debounced: string) returns (dispatched: Option<SearchArgs>)
      requires store.Valid()
      modifies store
      ensures store.Valid() && store.persisted == old(store.persisted)
      ensures dispatched.Some? <==> previous != debounced && !IsBlank(debounced) && debounced != old(store.searchQuery)
      ensures dispatched.Some? ==>
                dispatched.value == SearchArgs(debounced, Some(1), Some(old(store.filters.year)), Some(old(store.filters.kind)))
      ensures dispatched.Some? ==>
                store.State() == old(store.State()).(searchQuery := debounced, currentView := "search",
                                                     loading := true, error := None)
      ensures dispatched.None? ==> store.State() == old(store.State())
    {
      if previous != debounced {
        dispatched := OnDebouncedQuery(debounced);
      } else {
        dispatched := None;
      }
    }

    /** `handleClearSearch`: empties the input and the stored query, which
        returns the view to "home"; the handler itself dispatches no search. */
    method HandleClearSearch()
      requires store.Valid()
      modifies this, store
      ensures store.Valid() && store.persisted == old(store.persisted)
      ensures localQuery == ""
      ensures store.State() == old(store.State()).(searchQuery := "", currentView := "home")
    {
      localQuery := "";
      store.SetSearchQuery("");
    }

    /** A click on the clear button as the component is written. `debounced`
        is the debounced value when the button is clicked; it lags the input
        by the debounce delay, so the render the click causes still sees it.
        That render changed the stored query, so the effect runs with it and,
        when it is not blank, searches it again: the input is empty, but the
        stored query is the old one and the view is "search". When the
        debounced value then settles on "" the effect runs again and does
        nothing. */
    method ClearSearchAsWritten(debounced: string) returns (dispatched: Option<SearchArgs>)
      requires store.Valid()
      modifies this, store
      ensures store.Valid() && store.persisted == old(store.persisted)
      ensures localQuery == ""
      ensures dispatched.Some? <==> !IsBlank(debounced)
      ensures dispatched.Some? ==>
                store.State() == old(store.State()).(searchQuery := debounced, currentView := "search",
                                                     loading := true, error := None)
      ensures dispatched.None? ==> store.State() == old(store.State()).(searchQuery := "", currentView := "home")
    {
      HandleClearSearch();
      dispatched := OnDebouncedQuery(debounced);
      var settled := OnDebouncedQuery(localQuery);
      assert settled.None?;
    }

    /** The same click with the effect run only when the debounced value
        changes: the render the click causes runs nothing, and the debounced
        value settling on "" runs nothing either, so the query stays cleared
        and the view stays "home". */
    method ClearSearchIntended(debounced: string) returns (dispatched: Option<SearchArgs>)
      requires store.Valid()
      modifies this, store
      ensures store.Valid() && store.persisted == old(store.persisted)
      ensures localQuery == ""
      ensures dispatched.None?
      ensures store.State() == old(store.State()).(searchQuery := "", currentView := "home")
    {
      HandleClearSearch();
      dispatched := OnDebouncedChange(debounced, debounced);
      var settled := OnDebouncedChange(debounced, localQuery);
      assert settled.None?;
    }

    /** `handleFilterChange(key, value)`: the filter takes the value; with a
        stored query that is not blank, the search is repeated on page 1 with
        the value for that filter and the previous value of the other, which
        are exactly the filters the store now holds. */
    method HandleFilterChange(key: FilterKey, value: string) returns (dispatched: Option<SearchArgs>)
      requires store.Valid()
      modifies store
      ensures store.Valid() && store.persisted == old(store.persisted)
      ensures store.filters == if key == Year then old(store.filters).(year := value)
                               else old(store.filters).(kind := value)
      ensures dispatched.Some? <==> !IsBlank(old(store.searchQuery))
      ensures dispatched.Some? ==>
                dispatched.value == SearchArgs(old(store.searchQuery), Some(1),
                                               Some(store.filters.year), Some(store.filters.kind))
      ensures dispatched.Some? ==>
                store.State() == old(store.State()).(filters := store.filters, loading := true, error := None)
      ensures dispatched.None? ==> store.State() == old(store.State()).(filters := store.filters)
    {
      var query, previous := store.searchQuery, store.filters;
      store.SetFilters(if key == Year then Some(value) else None, if key == Type then Some(value) else None);
      if !IsBlank(query) {
        dispatched := Some(SearchArgs(query, Some(1),
                                      Some(if key == Year then value else previous.year),
                                      Some(if key == Type then value else previous.kind)));
        store.Pending(SearchFetch);
      } else {
        dispatched := None;
      }
    }

    /** `clearFilters`: any year and every type; with a stored query that is
        not blank, the search is repeated with exactly those filters. */
    method ClearFilters() returns (dispatched: Option<SearchArgs>)
      requires store.Valid()
      modifies store
      ensures store.Valid() && store.persisted == old(store.persisted)
      ensures store.filters == Filters("", "all")
      ensures ActiveFiltersCount(store.filters) == 0
      ensures dispatched.Some? <==> !IsBlank(old(store.searchQuery))
      ensures dispatched.Some? ==> dispatched.value == SearchArgs(old(store.searchQuery), Some(1), Some(""), Some("all"))
      ensures dispatched.Some? ==>
                store.State() == old(store.State()).(filters := Filters("", "all"), loading := true, error := None)
      ensures dispatched.None? ==> store.State() == old(store.State()).(filters := Filters("", "all"))
    {
      store.SetFilters(Some(""), Some("all"));
      if !IsBlank(store.searchQuery) {
        dispatched := Some(SearchArgs(store.searchQuery, Some(1), Some(""), Some("all")));
        store.Pending(SearchFetch);
      } else {
        dispatched := None;
      }
    }
  }
}
