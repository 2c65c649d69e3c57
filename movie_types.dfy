/** The records the movie database returns and the front end keeps
    (types/movie.ts). Field `Type` of the upstream records is called `kind`
    here, since `type` is a keyword. */
module MovieTypes {
  import opened JsText

  /** One item of a search reply. */
  datatype Movie = Movie(imdbId: string, title: string, year: string, kind: string, poster: string)

  /** One {Source, Value} pair of a details reply. */
  datatype RatingSource = RatingSource(source: string, value: string)

  /** The details reply for one identifier, kept as the current movie. `error`
      is the envelope's error text, present on a failed reply. */
  datatype MovieDetails = MovieDetails(
    imdbId: string, title: string, year: string, rated: string, released: string,
    runtime: string, genre: string, director: string, writer: string, actors: string,
    plot: string, language: string, country: string, awards: string, poster: string,
    ratings: seq<RatingSource>, metascore: string, imdbRating: string, imdbVotes: string,
    kind: string, dvd: string, boxOffice: string, production: string, website: string,
    response: string, error: Option<string>)

  /** The search reply envelope: `response` is "True" or "False"; on "False"
      `error` carries the upstream message. */
  datatype SearchResponse = SearchResponse(
    search: Option<seq<Movie>>, totalResults: string, response: string, error: Option<string>)

  /** The search filters; `kind` is one of "all", "movie", "series", "episode". */
  datatype Filters = Filters(year: string, kind: string)
}
