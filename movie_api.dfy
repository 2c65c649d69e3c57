/** The client of the movie database (lib/movie-api.ts): it turns a search,
    a details lookup or a suggestion lookup into a request URL, and turns the
    reply envelope into a value or a thrown error. `fetch` and
    `response.json()` are not modelled: what they produced is a parameter
    (`Fetched`), and the request that would be handed to `fetch` is part of
    the result, so that "no request was issued" can be stated. */
module MovieApi {
  import opened JsText
  import opened MovieTypes

  const OmdbApiUrl := "https://www.omdbapi.com/"
  const MissingKeyMessage := "OMDB API key is not configured. Please set NEXT_PUBLIC_OMDB_API_KEY in your .env.local file."
  /** The one upstream error that means "no results" rather than failure. */
  const NotFoundMessage := "Movie not found!"
  const SearchFailedMessage := "Failed to fetch movies"
  const DetailsFailedMessage := "Failed to fetch movie details"
  /** How many suggestions are kept. */
  const SuggestionLimit := 5

  /** The query parameter names the client uses. */
  datatype Key = ApiKey | SearchText | Page | ReleaseYear | ResultType | ImdbId {
    /** The name sent in the query string. */
    function Name(): string {
      match this
      case ApiKey => "apikey"
      case SearchText => "s"
      case Page => "page"
      case ReleaseYear => "y"
      case ResultType => "type"
      case ImdbId => "i"
    }
  }

  /** One property of a query object; a sequence of them is the object, keys
      in insertion order. */
  datatype Param = Param(key: Key, value: string)

  /** A request URL: the endpoint and its query parameters, in order. */
  datatype Url = Url(endpoint: string, query: seq<Param>)

  /** What `fetch` and `response.json()` produced: the decoded reply, or an
      exception with its message. */
  datatype Fetched<T> = Delivered(data: T) | TransportFailure(message: Option<string>)

  /** How a call ends: it returns a value or throws an error with a message. */
  datatype Settled<T> = Returned(value: T) | Threw(message: Option<string>)

  /** The request a call handed to `fetch`, if any, and how the call ended. */
  datatype Exchange<T> = Exchange(request: Option<Url>, result: Settled<T>)

  /** The reply `searchMovies` gives in place of "Movie not found!". */
  const EmptySearch := SearchResponse(Some([]), "0", "True", None)

  // ---------------------------------------------------------------------
  // Query objects

  /** `obj[k]`: the value under key `k`, if there is one. */
  function Lookup(ps: seq<Param>, k: Key): Option<string> {
    if ps == [] then None
    else if ps[0].key == k then Some(ps[0].value)
    else Lookup(ps[1..], k)
  }

  /** `k in obj` */
  predicate HasKey(ps: seq<Param>, k: Key) {
    Lookup(ps, k).Some?
  }

  /** The keys of a query object, in order. */
  function Keys(ps: seq<Param>): (ks: seq<Key>)
    ensures |ks| == |ps|
  {
    if ps == [] then [] else [ps[0].key] + Keys(ps[1..])
  }

  /** A key is present exactly when it is one of the keys. */
  lemma {:induction false} HasKeyKeys(ps: seq<Param>, k: Key)
    ensures HasKey(ps, k) <==> k in Keys(ps)
  {
    if ps != [] {
      HasKeyKeys(ps[1..], k);
    }
  }

  /** No key occurs twice, as in every JavaScript object. */
  predicate DistinctKeys(ps: seq<Param>) {
    forall i, j :: 0 <= i < j < |ps| ==> ps[i].key != ps[j].key
  }

  /** Every key of the object is present. */
  lemma {:induction false} HasKeyAt(ps: seq<Param>, i: nat)
    requires i < |ps|
    ensures HasKey(ps, ps[i].key)
  {
    if i > 0 && ps[0].key != ps[i].key {
      HasKeyAt(ps[1..], i - 1);
    }
  }

  /** In an object, the value under a key is the one stored with it. */
  lemma {:induction false} LookupAt(ps: seq<Param>, i: nat)
    requires i < |ps| && DistinctKeys(ps)
    ensures Lookup(ps, ps[i].key) == Some(ps[i].value)
  {
    if i > 0 {
      LookupAt(ps[1..], i - 1);
    }
  }

  /** A key that no property carries is absent. */
  lemma {:induction false} LookupMissing(ps: seq<Param>, k: Key)
    requires forall i :: 0 <= i < |ps| ==> ps[i].key != k
    ensures Lookup(ps, k) == None
  {
    if ps != [] {
      LookupMissing(ps[1..], k);
    }
  }

  /** `obj[k] = v`: an existing key keeps its place and takes the new value;
      a new key goes last. */
  function Assign(ps: seq<Param>, k: Key, v: string): (r: seq<Param>)
    ensures Lookup(r, k) == Some(v)
    ensures !HasKey(ps, k) ==> r == ps + [Param(k, v)]
    ensures |ps| <= |r| <= |ps| + 1
  {
    if ps == [] then [Param(k, v)]
    else if ps[0].key == k then [Param(k, v)] + ps[1..]
    else
      var tail := Assign(ps[1..], k, v);
      var r := [ps[0]] + tail;
      assert r[1..] == tail;
      r
  }

  /** Assigning one property leaves every other property as it was. */
  lemma {:induction false} AssignOther(ps: seq<Param>, k: Key, v: string, j: Key)
    requires j != k
    ensures Lookup(Assign(ps, k, v), j) == Lookup(ps, j)
  {
    if ps != [] && ps[0].key != k {
      var r := Assign(ps, k, v);
      assert r[1..] == Assign(ps[1..], k, v);
      AssignOther(ps[1..], k, v, j);
    }
  }

  /** Assigning keeps the order of the keys: an existing key stays in its
      place, a new one is added last. */
  lemma {:induction false} AssignKeys(ps: seq<Param>, k: Key, v: string)
    ensures Keys(Assign(ps, k, v)) == if HasKey(ps, k) then Keys(ps) else Keys(ps) + [k]
  {
    if ps != [] {
      var r := Assign(ps, k, v);
      if ps[0].key == k {
        assert r[1..] == ps[1..];
      } else {
        assert r[1..] == Assign(ps[1..], k, v);
        AssignKeys(ps[1..], k, v);
        if !HasKey(ps, k) {
          assert Keys(ps) + [k] == [ps[0].key] + (Keys(ps[1..]) + [k]);
        }
      }
    }
  }

  /** Appending a property does not change the lookup of another key. */
  lemma {:induction false} LookupAppendOther(ps: seq<Param>, p: Param, k: Key)
    requires k != p.key
    ensures Lookup(ps + [p], k) == Lookup(ps, k)
  {
    if ps != [] {
      assert (ps + [p])[1..] == ps[1..] + [p];
      LookupAppendOther(ps[1..], p, k);
    }
  }

  /** `{...target, ...source}`: the properties of `source` assigned to
      `target`, first to last. */
  function Spread(target: seq<Param>, source: seq<Param>): (r: seq<Param>)
    ensures |target| <= |r| <= |target| + |source|
    decreases |source|
  {
    if source == [] then target
    else Spread(Assign(target, source[0].key, source[0].value), source[1..])
  }

  /** A property of `source` overrides the same property of `target`; every
      other property of `target` is kept. */
  lemma {:induction false} SpreadLookup(target: seq<Param>, source: seq<Param>, k: Key)
    requires DistinctKeys(source)
    ensures Lookup(Spread(target, source), k) ==
            if HasKey(source, k) then Lookup(source, k) else Lookup(target, k)
    decreases |source|
  {
    if source != [] {
      var first := source[0];
      var next := Assign(target, first.key, first.value);
      SpreadLookup(next, source[1..], k);
      if k != first.key {
        AssignOther(target, first.key, first.value, k);
      } else {
        LookupMissing(source[1..], k);
      }
    }
  }

  /** The keys of `target` come first in `{...target, ...source}`, in their
      own order. */
  lemma {:induction false} SpreadKeys(target: seq<Param>, source: seq<Param>)
    ensures Keys(target) <= Keys(Spread(target, source))
    decreases |source|
  {
    if source != [] {
      var next := Assign(target, source[0].key, source[0].value);
      AssignKeys(target, source[0].key, source[0].value);
      SpreadKeys(next, source[1..]);
    }
  }

  /** Spreading properties none of which the target has appends them in order. */
  lemma {:induction false} SpreadFresh(target: seq<Param>, source: seq<Param>)
    requires DistinctKeys(source)
    requires forall i :: 0 <= i < |source| ==> !HasKey(target, source[i].key)
    ensures Spread(target, source) == target + source
    decreases |source|
  {
    if source != [] {
      var first, rest := source[0], source[1..];
      SpreadAppends(target, first, rest);
      FreshAfterAppend(target, source);
      SpreadFresh(target + [first], rest);
      assert (target + [first]) + rest == target + source;
    }
  }

  /** Spreading a first property the target lacks appends it. */
  lemma SpreadAppends(target: seq<Param>, first: Param, rest: seq<Param>)
    requires !HasKey(target, first.key)
    ensures Spread(target, [first] + rest) == Spread(target + [first], rest)
  {
    assert ([first] + rest)[1..] == rest;
  }

  /** Once the first property is appended, the others are still fresh. */
  lemma FreshAfterAppend(target: seq<Param>, source: seq<Param>)
    requires source != [] && DistinctKeys(source)
    requires forall i :: 0 <= i < |source| ==> !HasKey(target, source[i].key)
    ensures !HasKey(target, source[0].key)
    ensures source == [source[0]] + source[1..]
    ensures DistinctKeys(source[1..])
    ensures forall i :: 0 <= i < |source[1..]| ==> !HasKey(target + [source[0]], source[1..][i].key)
  {
    var rest := source[1..];
    forall i | 0 <= i < |rest|
      ensures !HasKey(target + [source[0]], rest[i].key)
    {
      assert rest[i] == source[i + 1];
      LookupAppendOther(target, source[0], rest[i].key);
    }
  }

  // ---------------------------------------------------------------------
  // buildUrl

  /** `buildUrl(params)`: throws the configuration error when the API key is
      missing or empty; otherwise the endpoint with `{apikey, ...params}`. */
  function BuildUrl(apiKey: Option<string>, params: seq<Param>): (r: Settled<Url>)
    ensures r.Threw? <==> !Truthy(apiKey)
    ensures r.Threw? ==> r.message == Some(MissingKeyMessage)
    ensures r.Returned? ==> r.value.endpoint == OmdbApiUrl
  {
    if !Truthy(apiKey) then Threw(Some(MissingKeyMessage))
    else Returned(Url(OmdbApiUrl, Spread([Param(ApiKey, apiKey.value)], params)))
  }

  /** With a key, the query holds `apikey` followed by exactly the supplied
      parameters, when these are an object without an `apikey` property. */
  lemma BuildUrlQuery(apiKey: Option<string>, params: seq<Param>)
    requires Truthy(apiKey)
    requires DistinctKeys(params) && !HasKey(params, ApiKey)
    ensures BuildUrl(apiKey, params) ==
            Returned(Url(OmdbApiUrl, [Param(ApiKey, apiKey.value)] + params))
  {
    var base := [Param(ApiKey, apiKey.value)];
    forall i | 0 <= i < |params|
      ensures !HasKey(base, params[i].key)
    {
      HasKeyAt(params, i);
      LookupMissing(base, params[i].key);
    }
    SpreadFresh(base, params);
  }

  // ---------------------------------------------------------------------
  // searchMovies

  /** The type filter is sent when it is set and is not "all". */
  predicate SendsKind(kind: Option<string>) {
    Truthy(kind) && kind.value != "all"
  }

  /** The parameters of a search, in the order `searchMovies` assigns them:
      `s` and `page` always, `y` only for a non-empty year, `type` only for a
      type other than "all". */
  function SearchParams(query: string, page: int, year: Option<string>, kind: Option<string>)
    : (r: seq<Param>)
    ensures 2 <= |r| <= 4
    ensures r[0] == Param(SearchText, query) && r[1] == Param(Page, DecimalText(page))
    ensures |r| == 2 + (if Truthy(year) then 1 else 0) + (if SendsKind(kind) then 1 else 0)
  {
    [Param(SearchText, query), Param(Page, DecimalText(page))]
    + (if Truthy(year) then [Param(ReleaseYear, year.value)] else [])
    + (if SendsKind(kind) then [Param(ResultType, kind.value)] else [])
  }

  /** Read as an object, the search parameters hold the query, the page as
      decimal text, the year exactly when it is non-empty and the type exactly
      when it is set and not "all"; no key occurs twice and none is `apikey`. */
  lemma SearchParamsLookup(query: string, page: int, year: Option<string>, kind: Option<string>)
    ensures var ps := SearchParams(query, page, year, kind);
      && DistinctKeys(ps) && !HasKey(ps, ApiKey)
      && Lookup(ps, SearchText) == Some(query)
      && Lookup(ps, Page) == Some(DecimalText(page))
      && Lookup(ps, ReleaseYear) == (if Truthy(year) then year else None)
      && Lookup(ps, ResultType) == (if SendsKind(kind) then kind else None)
  {
    var ps := SearchParams(query, page, year, kind);
    var s, p := Param(SearchText, query), Param(Page, DecimalText(page));
    var y, t := Param(ReleaseYear, year.GetOr("")), Param(ResultType, kind.GetOr(""));
    if Truthy(year) && SendsKind(kind) {
      assert ps == [s, p, y, t];
      LookupAt(ps, 2);
      LookupAt(ps, 3);
    } else if Truthy(year) {
      assert ps == [s, p, y];
      LookupAt(ps, 2);
      LookupMissing(ps, ResultType);
    } else if SendsKind(kind) {
      assert ps == [s, p, t];
      LookupMissing(ps, ReleaseYear);
      LookupAt(ps, 2);
    } else {
      assert ps == [s, p];
      LookupMissing(ps, ReleaseYear);
      LookupMissing(ps, ResultType);
    }
    LookupAt(ps, 0);
    LookupAt(ps, 1);
    LookupMissing(ps, ApiKey);
  }

  /** The reply check of `searchMovies`: a "False" reply saying "Movie not
      found!" becomes an empty result, any other "False" reply throws its
      error text (or a generic message), and every other reply is returned as it is. */
  function SearchReply(fetched: Fetched<SearchResponse>): (r: Settled<SearchResponse>)
    ensures fetched.TransportFailure? ==> r == Threw(fetched.message)
    ensures fetched.Delivered? && fetched.data.response != "False" ==> r == Returned(fetched.data)
    ensures fetched.Delivered? && fetched.data.response == "False" ==>
              if fetched.data.error == Some(NotFoundMessage) then r == Returned(EmptySearch)
              else r == Threw(Some(OrElse(fetched.data.error, SearchFailedMessage)))
    ensures r.Returned? ==> r.value.response != "False"
    ensures fetched.Delivered? && r.Threw? ==> r.message.Some? && r.message.value != ""
  {
    match fetched
    case TransportFailure(message) => Threw(message)
    case Delivered(data) =>
      if data.response == "False" then
        if data.error == Some(NotFoundMessage) then Returned(EmptySearch)
        else Threw(Some(OrElse(data.error, SearchFailedMessage)))
      else Returned(data)
  }

  /** `MovieAPI.searchMovies(query, page, year, type)`, building its query
      object in place. */
  method SearchMovies(apiKey: Option<string>, query: string, page: int, year: Option<string>,
                      kind: Option<string>, fetched: Fetched<SearchResponse>)
    returns (ex: Exchange<SearchResponse>)
    ensures ex.request.None? <==> !Truthy(apiKey)
    ensures ex.request.None? ==> ex.result == Threw(Some(MissingKeyMessage))
    ensures ex.request.Some? ==>
              && ex.request.value.endpoint == OmdbApiUrl
              && ex.request.value.query == [Param(ApiKey, apiKey.value)] + SearchParams(query, page, year, kind)
              && ex.result == SearchReply(fetched)
  {
    var params := [Param(SearchText, query), Param(Page, DecimalText(page))];
    LookupMissing(params, ReleaseYear);
    if Truthy(year) {
      params := Assign(params, ReleaseYear, year.value);
    }
    LookupMissing(params, ResultType);
    if SendsKind(kind) {
      params := Assign(params, ResultType, kind.value);
    }
    assert params == SearchParams(query, page, year, kind);
    SearchParamsLookup(query, page, year, kind);
    var url := BuildUrl(apiKey, params);
    if url.Threw? {
      return Exchange(None, Threw(url.message));
    }
    BuildUrlQuery(apiKey, params);
    ex := Exchange(Some(url.value), SearchReply(fetched));
  }

  // ---------------------------------------------------------------------
  // getMovieDetails

  /** `MovieAPI.getMovieDetails(imdbID)`: the query holds only the identifier;
      every "False" reply, "Movie not found!" included, throws. */
  function GetMovieDetails(apiKey: Option<string>, imdbId: string, fetched: Fetched<MovieDetails>)
    : (r: Exchange<MovieDetails>)
    ensures r.request.None? <==> !Truthy(apiKey)
    ensures r.request.None? ==> r.result == Threw(Some(MissingKeyMessage))
    ensures r.request.Some? ==>
              r.request.value == Url(OmdbApiUrl, [Param(ApiKey, apiKey.value), Param(ImdbId, imdbId)])
    ensures r.request.Some? && fetched.TransportFailure? ==> r.result == Threw(fetched.message)
    ensures r.request.Some? && fetched.Delivered? ==>
              r.result == if fetched.data.response == "False"
                          then Threw(Some(OrElse(fetched.data.error, DetailsFailedMessage)))
                          else Returned(fetched.data)
    ensures r.result.Returned? ==> r.result.value.response != "False"
  {
    var params := [Param(ImdbId, imdbId)];
    match BuildUrl(apiKey, params)
    case Threw(message) => Exchange(None, Threw(message))
    case Returned(url) =>
      LookupMissing(params, ApiKey);
      BuildUrlQuery(apiKey, params);
      var result :=
        match fetched
        case TransportFailure(message) => Threw(message)
        case Delivered(data) =>
          if data.response == "False" then Threw(Some(OrElse(data.error, DetailsFailedMessage)))
          else Returned(data);
      Exchange(Some(url), result)
  }

  // ---------------------------------------------------------------------
  // getMovieSuggestions

  function Min(a: int, b: int): int {
    if a <= b then a else b
  }

  /** `MovieAPI.getMovieSuggestions(query)`: never throws. A missing key, a
      transport failure, a "False" reply or a reply without results all give
      no suggestions; otherwise the first five results, in order. */
  function GetMovieSuggestions(apiKey: Option<string>, query: string, fetched: Fetched<SearchResponse>)
    : (r: Exchange<seq<Movie>>)
    ensures r.result.Returned?
    ensures |r.result.value| <= SuggestionLimit
    ensures r.request.None? <==> !Truthy(apiKey)
    ensures r.request.Some? ==>
              r.request.value == Url(OmdbApiUrl, [Param(ApiKey, apiKey.value), Param(SearchText, query), Param(Page, "1")])
    ensures r.request.Some? && fetched.Delivered? && fetched.data.response != "False"
              && fetched.data.search.Some? ==>
              var all := fetched.data.search.value;
              |r.result.value| == Min(SuggestionLimit, |all|) && r.result.value == all[..|r.result.value|]
    ensures (r.request.None? || fetched.TransportFailure? || fetched.data.response == "False"
             || fetched.data.search.None?) ==> r.result.value == []
  {
    var params := [Param(SearchText, query), Param(Page, "1")];
    match BuildUrl(apiKey, params)
    case Threw(_) => Exchange(None, Returned([]))
    case Returned(url) =>
      LookupMissing(params, ApiKey);
      BuildUrlQuery(apiKey, params);
      var found :=
        match fetched
        case TransportFailure(_) => []
        case Delivered(data) =>
          if data.response == "False" then []
          else if data.search.Some? then data.search.value[..Min(SuggestionLimit, |data.search.value|)]
          else [];
      Exchange(Some(url), Returned(found))
  }
}
