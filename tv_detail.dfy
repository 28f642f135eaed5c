/** The series detail page: its record, the season accordion, the overview
    fallback, and the loading/error state set by the details fetch. */
module TVDetail {
  import opened Wrappers
  import opened Js
  import opened Detail

  datatype Season = Season(
    id: int,
    name: string,
    episodeCount: int,
    posterPath: Option<string>,
    overview: string)

  /** The series record with its appended credits and videos (display-only
      `vote_average` left out). */
  datatype TVDetails = TVDetails(
    id: int,
    name: string,
    overview: string,
    posterPath: Option<string>,
    firstAirDate: string,
    numberOfSeasons: int,
    numberOfEpisodes: int,
    genres: seq<Genre>,
    seasons: seq<Season>,
    credits: Option<seq<CastMember>>,
    videos: Option<seq<Video>>)

  const LoadError: string := "Error cargando detalles de la serie"

  const NoOverview: string := "Sin descripción disponible."

  /** `tv.credits?.cast.slice(0, 10)`: nothing when the record has no credits. */
  function ShownCast(tv: TVDetails): (r: seq<CastMember>)
    ensures tv.credits.None? ==> r == []
    ensures tv.credits.Some? ==> |r| == if |tv.credits.value| < MaxCast then |tv.credits.value| else MaxCast
    ensures forall i :: 0 <= i < |r| ==> tv.credits.Some? && r[i] == tv.credits.value[i]
  {
    match tv.credits
    case None => []
    case Some(cast) => CapCast(cast)
  }

  /** `season.overview || "Sin descripción disponible."`: never empty. */
  function OverviewText(season: Season): (r: string)
    ensures r != ""
    ensures season.overview != "" ==> r == season.overview
    ensures season.overview == "" ==> r == NoOverview
  {
    if season.overview != "" then season.overview else NoOverview
  }

  /** The details panel of each season: shown, with its overview text, only
      for the season whose index is the open one; so at most one is shown. */
  function SeasonPanels(seasons: seq<Season>, open: Option<nat>): (r: seq<Option<string>>)
    ensures |r| == |seasons|
    ensures forall i :: 0 <= i < |r| ==> (r[i].Some? <==> open == Some(i))
    ensures forall i :: 0 <= i < |r| && r[i].Some? ==> r[i].value == OverviewText(seasons[i])
    ensures forall i, j :: 0 <= i < |r| && 0 <= j < |r| && r[i].Some? && r[j].Some? ==> i == j
  {
    seq(|seasons|, i requires 0 <= i < |seasons| =>
      if open == Some(i) then Some(OverviewText(seasons[i])) else None)
  }

  class TVDetailPage {
    var tv: Option<TVDetails>
    var loading: bool
    var error: Option<string>
    var openSeason: Option<nat>
    /** The details request was issued and has not settled yet. */
    var awaiting: bool

    /** While the request is out nothing is set; once loading ends exactly one
        of the record and the error is set. */
    ghost predicate Valid()
      reads this
    {
      (awaiting ==> loading && tv.None? && error.None?) &&
      (!loading ==> (tv.Some? <==> error.None?))
    }

    function CurrentView(): (v: View<TVDetails>)
      reads this
      ensures v.Loading? <==> loading
    {
      Render(loading, error, tv)
    }

    /** Mounting: loading, no record, no error, every season closed; the
        request is issued only when the route has an id. */
    constructor (id: Option<string>)
      ensures Valid()
      ensures tv == None && loading && error == None && openSeason == None
      ensures awaiting == Truthy(id)
      ensures CurrentView() == Loading
    {
      tv, loading, error, openSeason := None, true, None, None;
      awaiting := Truthy(id);
    }

    /** The `.then` callback. */
    method FetchSucceeded(data: TVDetails)
      requires Valid() && awaiting
      modifies this`tv, this`loading, this`awaiting
      ensures Valid() && !awaiting
      ensures tv == Some(data) && !loading
      ensures CurrentView() == Loaded(data)
    {
      tv := Some(data);
      loading := false;
      awaiting := false;
    }

    /** The `.catch` callback. */
    method FetchFailed()
      requires Valid() && awaiting
      modifies this`error, this`loading, this`awaiting
      ensures Valid() && !awaiting
      ensures error == Some(LoadError) && tv == None && !loading
      ensures CurrentView() == ErrorView(LoadError)
    {
      error := Some(LoadError);
      loading := false;
      awaiting := false;
    }

    /** A click on the header of season `index`. */
    method ClickSeason(index: nat)
      modifies this`openSeason
      ensures openSeason == Toggle(old(openSeason), index)
    {
      openSeason := Toggle(openSeason, index);
    }

    /** The season panels of the loaded record. */
    function ShownSeasons(): (r: seq<Option<string>>)
      reads this
      requires tv.Some?
      ensures |r| == |tv.value.seasons|
      ensures forall i :: 0 <= i < |r| ==> (r[i].Some? <==> openSeason == Some(i))
    {
      SeasonPanels(tv.value.seasons, openSeason)
    }
  }
}
