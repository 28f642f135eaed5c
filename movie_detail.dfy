/** The movie detail page: its record, the conditional cast and genre sections,
    and the loading/error state set by the details fetch. */
module MovieDetail {
  import opened Wrappers
  import opened Js
  import opened Detail

  /** The movie record with its appended credits and videos (display-only
      `vote_average` left out). `genres` is optional because the page reads it
      through `?.`; `credits` is `None` when either `credits` or its `cast` is
      missing, the two cases the page reads through `?.` alike. */
  datatype MovieDetails = MovieDetails(
    id: int,
    title: string,
    overview: string,
    posterPath: Option<string>,
    releaseDate: string,
    genres: Option<seq<Genre>>,
    credits: Option<seq<CastMember>>,
    videos: Option<seq<Video>>)

  const LoadError: string := "Error cargando detalles de la película"

  /** The cast section: present only when the cast is present and non-empty,
      and then its first ten entries. */
  function CastSection(m: MovieDetails): (r: Option<seq<CastMember>>)
    ensures r.Some? <==> m.credits.Some? && |m.credits.value| > 0
    ensures r.Some? ==> 0 < |r.value| <= MaxCast
    ensures r.Some? ==> |r.value| == if |m.credits.value| < MaxCast then |m.credits.value| else MaxCast
    ensures r.Some? ==> forall i :: 0 <= i < |r.value| ==> r.value[i] == m.credits.value[i]
  {
    if m.credits.Some? && |m.credits.value| > 0 then Some(CapCast(m.credits.value)) else None
  }

  /** The genres section: present only when there is at least one genre, and
      then the names joined with ", ". */
  function GenresSection(m: MovieDetails): (r: Option<string>)
    ensures r.Some? <==> m.genres.Some? && |m.genres.value| > 0
    ensures r.Some? ==> r.value == GenreLine(m.genres.value)
  {
    if m.genres.Some? && |m.genres.value| > 0 then Some(GenreLine(m.genres.value)) else None
  }

  class MovieDetailPage {
    var movie: Option<MovieDetails>
    var loading: bool
    var error: Option<string>
    /** The details request was issued and has not settled yet. */
    var awaiting: bool

    /** While the request is out nothing is set; once loading ends exactly one
        of the record and the error is set. */
    ghost predicate Valid()
      reads this
    {
      (awaiting ==> loading && movie.None? && error.None?) &&
      (!loading ==> (movie.Some? <==> error.None?))
    }

    function CurrentView(): (v: View<MovieDetails>)
      reads this
      ensures v.Loading? <==> loading
    {
      Render(loading, error, movie)
    }

    /** Mounting: loading, no record, no error; the request is issued only
        when the route has an id. */
    constructor (id: Option<string>)
      ensures Valid()
      ensures movie == None && loading && error == None
      ensures awaiting == Truthy(id)
      ensures CurrentView() == Loading
    {
      movie, loading, error := None, true, None;
      awaiting := Truthy(id);
    }

    /** The `.then` callback. */
    method FetchSucceeded(data: MovieDetails)
      requires Valid() && awaiting
      modifies this`movie, this`loading, this`awaiting
      ensures Valid() && !awaiting
      ensures movie == Some(data) && !loading
      ensures CurrentView() == Loaded(data)
    {
      movie := Some(data);
      loading := false;
      awaiting := false;
    }

    /** The `.catch` callback. */
    method FetchFailed()
      requires Valid() && awaiting
      modifies this`error, this`loading, this`awaiting
      ensures Valid() && !awaiting
      ensures error == Some(LoadError) && movie == None && !loading
      ensures CurrentView() == ErrorView(LoadError)
    {
      error := Some(LoadError);
      loading := false;
      awaiting := false;
    }
  }
}
