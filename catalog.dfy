/** The catalog item shape returned by the listing queries of the TMDB client,
    and the six listing queries themselves as abstract names. */
module Catalog {
  import opened Wrappers

  /** A listing result. `title` is set for movies, `name` for series; a missing
      `poster_path` is JSON `null`; `genre_ids` may be absent. The display-only
      `vote_average` is not part of the model. */
  datatype Item = Item(
    id: int,
    title: Option<string>,
    name: Option<string>,
    posterPath: Option<string>,
    genreIds: Option<seq<int>>)

  /** The media kind toggled on the explore page. */
  datatype MediaType = Movie | Tv

  /** The spelling of a media kind in the `type` URL parameter. */
  function TypeName(t: MediaType): string {
    match t
    case Movie => "movie"
    case Tv => "tv"
  }

  /** The six listing queries of the client (`getPopularMovies` ... `getTrendingTV`). */
  datatype Query =
    | PopularMovies | TopRatedMovies | TrendingMovies
    | PopularTV | TopRatedTV | TrendingTV

  /** The three listing categories a query can belong to. */
  datatype Category = PopularList | TopRatedList | TrendingList

  function QueryMedia(q: Query): MediaType {
    match q
    case PopularMovies | TopRatedMovies | TrendingMovies => Movie
    case PopularTV | TopRatedTV | TrendingTV => Tv
  }

  function QueryCategory(q: Query): Category {
    match q
    case PopularMovies | PopularTV => PopularList
    case TopRatedMovies | TopRatedTV => TopRatedList
    case TrendingMovies | TrendingTV => TrendingList
  }

  /** What a listing query yields: the page's `results`, or a thrown error
      (a non-2xx response or a network failure). */
  datatype Fetched = Results(results: seq<Item>) | FetchError
}
