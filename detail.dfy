/** What the movie and series detail pages share: the embedded video, cast and
    genre records, the trailer choice, the cast cap, the genre line, the
    back-navigation target and the order in which the page state is rendered. */
module Detail {
  import opened Wrappers
  import opened Js
  import opened Catalog
  import Explore

  /** An entry of `videos.results`; `type` is a keyword here, so `kind`. */
  datatype Video = Video(key: string, kind: string, site: string)

  /** An entry of `credits.cast`. */
  datatype CastMember = CastMember(id: int, name: string, profilePath: Option<string>)

  datatype Genre = Genre(id: int, name: string)

  /** The number of cast entries shown. */
  const MaxCast: nat := 10

  const GenreSeparator: string := ", "

  const BackPrefix: string := "/explore?type="

  predicate IsTrailer(v: Video) {
    v.kind == "Trailer" && v.site == "YouTube"
  }

  /** `videos?.results.find(v => v.type === "Trailer" && v.site === "YouTube")`:
      the first YouTube trailer, if the record has videos and one of them is. */
  function FindTrailer(videos: Option<seq<Video>>): (r: Option<Video>)
    ensures r.None? <==> videos.None? || forall v :: v in videos.value ==> !IsTrailer(v)
    ensures r.Some? ==> videos.Some? && IsTrailer(r.value)
    ensures r.Some? ==> exists i :: 0 <= i < |videos.value| && videos.value[i] == r.value &&
                                    forall j :: 0 <= j < i ==> !IsTrailer(videos.value[j])
  {
    match videos
    case None => None
    case Some(vs) => Find(vs, IsTrailer)
  }

  /** `cast.slice(0, 10)`: the first ten entries, or all when there are fewer. */
  function CapCast(cast: seq<CastMember>): (r: seq<CastMember>)
    ensures |r| == if |cast| < MaxCast then |cast| else MaxCast
    ensures forall i :: 0 <= i < |r| ==> r[i] == cast[i]
  {
    Take(cast, MaxCast)
  }

  function GenreNames(genres: seq<Genre>): seq<string> {
    Map(genres, (g: Genre) => g.name)
  }

  /** `genres.map(g => g.name).join(", ")`: empty when there are no genres,
      otherwise exactly as long as the names with ", " between each two, so
      with `GenreLineInOrder` nothing else is in the line. */
  function GenreLine(genres: seq<Genre>): (r: string)
    ensures genres == [] ==> r == ""
    ensures genres != [] ==>
              |r| == Offset(GenreNames(genres), GenreSeparator, |genres| - 1) + |genres[|genres| - 1].name|
  {
    Join(GenreNames(genres), GenreSeparator)
  }

  /** The genre line holds every genre name, in the given order, each one
      followed by ", " except the last. */
  lemma GenreLineInOrder(genres: seq<Genre>, i: nat)
    requires i < |genres|
    ensures Offset(GenreNames(genres), GenreSeparator, i) + |genres[i].name| <= |GenreLine(genres)|
    ensures GenreLine(genres)[Offset(GenreNames(genres), GenreSeparator, i)..
                              Offset(GenreNames(genres), GenreSeparator, i) + |genres[i].name|]
            == genres[i].name
    ensures i + 1 < |genres| ==>
              Offset(GenreNames(genres), GenreSeparator, i + 1) ==
                Offset(GenreNames(genres), GenreSeparator, i) + |genres[i].name| + |GenreSeparator| &&
              Offset(GenreNames(genres), GenreSeparator, i + 1) <= |GenreLine(genres)| &&
              GenreLine(genres)[Offset(GenreNames(genres), GenreSeparator, i) + |genres[i].name|..
                                Offset(GenreNames(genres), GenreSeparator, i + 1)]
              == GenreSeparator
  {
    var names := GenreNames(genres);
    assert names[i] == genres[i].name;
    JoinPart(names, GenreSeparator, i);
    if i + 1 < |genres| {
      JoinSeparator(names, GenreSeparator, i);
      OffsetStep(names, GenreSeparator, i);
    }
  }

  /** The media type the page reports back: a series when the current path
      contains "/tv/", a movie otherwise. */
  function BackType(path: string): (r: MediaType)
    ensures r == Tv <==> exists i :: OccursAt(path, "/tv/", i)
  {
    if Includes(path, "/tv/") then Tv else Movie
  }

  /** `handleBack`'s target. It is an explore URL whose `type` parameter the
      explore page accepts, and names the series type exactly when the path
      contains "/tv/". */
  function BackTarget(path: string): (r: string)
    ensures |BackPrefix| < |r| && r[..|BackPrefix|] == BackPrefix
    ensures Explore.TypeFromParam(Some(r[|BackPrefix|..])) ==
              Some(if exists i :: OccursAt(path, "/tv/", i) then Tv else Movie)
  {
    var r := BackPrefix + TypeName(BackType(path));
    assert r[|BackPrefix|..] == TypeName(BackType(path));
    r
  }

  /** What a detail page renders. */
  datatype View<T> = Loading | ErrorView(message: string) | Blank | Loaded(data: T)

  /** The render order of a detail page: loading first, then a non-empty
      error, then the record, and nothing when there is no record. */
  function Render<T>(loading: bool, error: Option<string>, data: Option<T>): (v: View<T>)
    ensures v.Loading? <==> loading
    ensures v.ErrorView? <==> !loading && Truthy(error)
    ensures v.Loaded? <==> !loading && !Truthy(error) && data.Some?
    ensures v.ErrorView? ==> v.message == error.value
    ensures v.Loaded? ==> v.data == data.value
  {
    if loading then Loading
    else if Truthy(error) then ErrorView(error.value)
    else if data.None? then Blank
    else Loaded(data.value)
  }
}
