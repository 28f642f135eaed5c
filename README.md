# Catalog browser view models, in Dafny

This project models the logic of a small movie and series catalog browser, a
React app over the TMDB API. The model covers three pages.

- **Explore page.** The media type and tab pick one of six listing queries.
  The results are filtered by an optional genre, and each item gets a unified
  `title` (`title || name`). The page keeps a favourites list ("Mi lista").
  Toggling an item appends or removes it, and the list is written to local
  storage on every toggle. The "mylist" tab shows the favourites instead of
  the fetched items. The page also has the genre-chip toggle and the `?type=`
  parameter guard.
- **Series and movie detail pages.** The trailer is the first YouTube
  "Trailer" video. At most ten cast entries are shown. Genre names are joined
  with ", ". The back button's target depends on whether the path contains
  "/tv/". A loading/error/loaded state is set by the fetch callbacks. The
  series page also has a season accordion, where at most one season is open.

## Layout

- `wrappers.dfy`, module `Wrappers`: `Option`, and the single-selection
  `Toggle` used by the genre chips and the season accordion.
- `js.dfy`, module `Js`: the JavaScript built-ins the pages use, as functions
  on sequences, with their lemmas. These are string truthiness, `||`,
  `filter`, `map`, `find` (with `FindIndex` as its helper), `some`,
  `slice(0, n)`, `join` and `String.prototype.includes`.
- `catalog.dfy`, module `Catalog`: the listing item (`Movie` in
  `src/services/tmdb.ts`), the media type and the six listing queries. A query
  yields either a result sequence or a fetch error.
- `explore.dfy`, module `Explore`: the pure listing pipeline and favourites
  functions, and the class `ExplorePage`. The class holds the page's state:
  tab, type, genre, items, favourites, the storage slot and the notices raised.
- `detail.dfy`, module `Detail`: the records and rules the two detail pages
  share.
- `tv_detail.dfy`, module `TVDetail`: the series record, season panels and
  the class `TVDetailPage`.
- `movie_detail.dfy`, module `MovieDetail`: the movie record, the conditional
  sections and the class `MovieDetailPage`.

The remote API is an abstract oracle. `ExplorePage.FetchData` takes a function
from `Query` to `Fetched`. The detail pages' `.then` and `.catch` callbacks
are the methods `FetchSucceeded` and `FetchFailed`. Local storage is the field
`persisted`. Toasts are the `Notice` values appended to `notices`.

## Behaviour worth noting

- A failed listing fetch keeps `items` as they were and only raises a toast
  (`src/pages/Explore.tsx:81-82`). `ExplorePage.FetchData` keeps `items`.
- The listing effect also runs on the "mylist" tab, and falls through to the
  popular query (`src/pages/Explore.tsx:64,68`). `SelectQuery` maps `MyList`
  to the popular query. `FetchData` updates the hidden `items`, and
  `DisplayedItems()` is unaffected.
- Titles are normalised in the page, after the genre filter
  (`src/pages/Explore.tsx:71-78`). `FilterThenNormalize` shows the order does
  not matter, because normalisation leaves `genre_ids` alone.
- Favourites only have a toggle. It appends when the id is absent and drops
  every entry with the id when it is present (`src/pages/Explore.tsx:92-99`).
  So toggling a present item twice need not restore the list: duplicates of
  the id are gone and the item moves to the end (`ToggleTwicePresent`).
- `activeGenre ? … : …` treats the genre id 0 as "no filter", because 0 is
  falsy. `KeepsGenre` models this. No genre chip has the id 0.

## Model

| member | source | states |
|---|---|---|
| `Explore.SelectQuery` | src/pages/Explore.tsx:61-69 | The query has the active media type. Its category is trending exactly for the "trending" tab, top-rated exactly for "top", and popular for "popular" and for "mylist". |
| `Explore.SelectQueryReachesAll` | src/pages/Explore.tsx:61-69 | Each of the six queries is selected by the (type, tab) pair its type and category name. |
| `Explore.KeepsGenre` | src/pages/Explore.tsx:71-72 | The genre test. A null genre and the falsy genre 0 keep every item. Under any other genre an item without `genre_ids` is dropped. |
| `Explore.FilterByGenre` | src/pages/Explore.tsx:71-73 | An item is kept exactly when it is a result and passes the genre test. That test is "no filter" for a null or 0 genre, otherwise "`genre_ids` present and containing the genre". The result is never longer than the input. |
| `Explore.Normalize` | src/pages/Explore.tsx:75-78 | Only `title` changes. It becomes `title` when that is a non-empty string, otherwise `name`. The new title is non-empty exactly when `title` or `name` was. |
| `Explore.Listing` | src/pages/Explore.tsx:71-78 | The stored items: never more than the results, each one passing the genre test, and each one with a non-empty title whenever its name is non-empty. |
| `Explore.ListingAppend` | src/pages/Explore.tsx:71-80 | The stored items for concatenated results are the concatenation of the stored items for each part. So the provider's order is kept. |
| `Explore.ListingSingle` | src/pages/Explore.tsx:71-78 | A single result is stored, normalised, exactly when it passes the genre test. |
| `Explore.ListingWithoutGenre` | src/pages/Explore.tsx:71-80 | With no genre, the stored items are the fetched results in the same order, each normalised. |
| `Explore.ListingWithGenre` | src/pages/Explore.tsx:71-73 | With genre G (not 0), every stored item has `genre_ids` containing G. Every result whose `genre_ids` contains G is stored, normalised. Results without `genre_ids` are dropped. |
| `Explore.FilterThenNormalize` | src/pages/Explore.tsx:71-78 | Filtering before normalising gives the same list as normalising first. |
| `Explore.InMyList` | src/pages/Explore.tsx:106 | True exactly when some entry of the list has the id. |
| `Explore.RemoveId` | src/pages/Explore.tsx:95 | No entry with the id is left. Every entry with another id is kept, and nothing else is added. |
| `Explore.RemoveIdAppend` | src/pages/Explore.tsx:95 | Removal works part by part on a concatenation. So the remaining entries keep their order. |
| `Explore.RemoveAbsentId` | src/pages/Explore.tsx:95 | Removing an id the list does not hold leaves the list unchanged. |
| `Explore.Toggled` | src/pages/Explore.tsx:90-100 | Membership of the item's id flips. An absent item is appended at the end. A present id is removed by `RemoveId`, so the other entries stay, in order and with their repeats. Entries with other ids are untouched. |
| `Explore.ToggleTwiceRestores` | src/pages/Explore.tsx:94-98 | Toggling an absent item twice restores the list exactly. |
| `Explore.ToggleTwicePresent` | src/pages/Explore.tsx:94-98 | Toggling a present item twice drops all its entries, then appends the item once at the end. |
| `Explore.TypeFromParam` | src/pages/Explore.tsx:42-46 | The `type` parameter names a media type exactly when it is "tv" or "movie". That type is spelled like the parameter. |
| `Explore.Displayed` | src/pages/Explore.tsx:107 | The favourites on the "mylist" tab, the fetched items on every other tab. |
| `Wrappers.Toggle` | src/pages/Explore.tsx:153-154 | Clicking the active genre chip clears the filter. Clicking any other chip selects exactly that genre. |
| `Explore.ExplorePage.constructor` | src/pages/Explore.tsx:34-53 | The page starts on the popular movies tab, with no genre, no items and no notices. The favourites are the stored list when the storage slot exists, otherwise empty. The slot and the list agree. |
| `Explore.ExplorePage.IsInMyList` | src/pages/Explore.tsx:106 | True exactly when some favourite has the id. |
| `Explore.ExplorePage.DisplayedItems` | src/pages/Explore.tsx:107 | The favourites when the tab is "mylist", otherwise the fetched items. |
| `Explore.ExplorePage.ReadTypeParam` | src/pages/Explore.tsx:41-47 | The type changes only for "tv" or "movie", and then to that type. Only that field may change. |
| `Explore.ExplorePage.ClickType` | src/pages/Explore.tsx:113-116 | The type becomes the clicked one. Only that field may change. |
| `Explore.ExplorePage.ClickTab` | src/pages/Explore.tsx:134-137 | The tab becomes the clicked one, and the list on screen is chosen by the new tab. |
| `Explore.ExplorePage.ClickGenre` | src/pages/Explore.tsx:150-155 | The genre follows the chip toggle. Only that field may change. |
| `Explore.ExplorePage.FetchData` | src/pages/Explore.tsx:56-87 | The query for the current type and tab is fetched, on the "mylist" tab too. On success the items become the filtered, normalised results and no notice is raised. On failure the items are unchanged and a load-failure notice is raised. The "mylist" view is unaffected either way. |
| `Explore.ExplorePage.ToggleMyList` | src/pages/Explore.tsx:90-104 | The favourites become the toggled list, and the storage slot holds a copy of it. Membership of the id flips. A "removed" or "added" notice is raised accordingly. The slot and the list still agree. |
| `Js.Or` | src/pages/Explore.tsx:77 | The `or` operator on optional strings: `a` when it is a non-empty string, otherwise `b`. |
| `Js.Filter` | src/pages/Explore.tsx:72 | `filter`: an element is kept exactly when it is in the input and satisfies the predicate. The result is never longer than the input. |
| `Js.FilterAppend` | src/pages/Explore.tsx:72 | `filter` works part by part on a concatenation, so it keeps relative order. |
| `Js.FilterKeepsAll` | src/pages/Explore.tsx:73 | When every element passes, `filter` returns the input unchanged. |
| `Js.Map` | src/pages/Explore.tsx:75 | `map` keeps the length, and element i of the result is the function applied to element i. |
| `Js.FindIndex` | src/pages/Explore.tsx:92 | The helper behind `find`: the index of the first element satisfying the predicate, or none exactly when no element does. |
| `Js.Find` | src/pages/Explore.tsx:92 | `find`: none exactly when no element satisfies the predicate. Otherwise an element that does, with none before it. |
| `Js.Any` | src/pages/Explore.tsx:106 | `some`: true exactly when some element satisfies the predicate. |
| `Js.Take` | src/pages/TVDetail.tsx:145 | `slice(0, n)`: the first `min(n, length)` elements, in order. |
| `Js.OffsetStep` | src/pages/TVDetail.tsx:123 | In a joined string, the next part starts one part and one separator after the previous one. |
| `Js.Join` | src/pages/TVDetail.tsx:123 | `join` of no parts is the empty string. Otherwise the result is exactly as long as the parts plus one separator between each two. |
| `Js.JoinPart` | src/pages/TVDetail.tsx:123 | `join`: part i appears whole at its offset in the joined string. |
| `Js.JoinSeparator` | src/pages/TVDetail.tsx:123 | `join`: the separator sits between each part and the next. |
| `Js.Includes` | src/pages/TVDetail.tsx:43 | `String.prototype.includes`: true exactly when the substring occurs at some position. |
| `Detail.FindTrailer` | src/pages/TVDetail.tsx:70-72 | The trailer is missing exactly when there are no videos or none is a YouTube "Trailer". Otherwise it is one, with no such video before it. MovieDetail.tsx:58-60 applies the same rule. |
| `Detail.GenreLine` | src/pages/TVDetail.tsx:123 | The genre line is empty for no genres. Otherwise it is exactly as long as the names with ", " between each two, so with `GenreLineInOrder` it holds nothing else. MovieDetail.tsx:114 builds the same line. |
| `Detail.CapCast` | src/pages/TVDetail.tsx:145 | The shown cast is the first `min(10, length)` entries, in order. |
| `Detail.GenreLineInOrder` | src/pages/TVDetail.tsx:123 | The genre line holds every genre name, in order, with ", " between consecutive names. MovieDetail.tsx:114 joins the same way. |
| `Detail.BackType` | src/pages/TVDetail.tsx:43 | The type reported back is the series type exactly when the current path contains "/tv/". |
| `Detail.BackTarget` | src/pages/TVDetail.tsx:43-60 | The target starts with `/explore?type=`. Its parameter is one the explore page's guard accepts. It names the series type exactly when the current path contains "/tv/", otherwise the movie type. MovieDetail.tsx:31,46-48 does the same. |
| `Detail.Render` | src/pages/TVDetail.tsx:62-68 | Render order: "loading" exactly while loading. Otherwise the error when it is a non-empty string. Otherwise the record when there is one. MovieDetail.tsx:50-56 uses the same order. |
| `TVDetail.ShownCast` | src/pages/TVDetail.tsx:145 | No cast without credits. Otherwise the first `min(10, length)` entries, in order. |
| `TVDetail.OverviewText` | src/pages/TVDetail.tsx:203 | The season text is never empty. It is the overview when that is non-empty, otherwise "Sin descripción disponible.". |
| `TVDetail.SeasonPanels` | src/pages/TVDetail.tsx:171-206 | One panel per season. A panel is shown exactly for the season whose index is open, with its overview text. At most one panel is shown. |
| `TVDetail.TVDetailPage.constructor` | src/pages/TVDetail.tsx:37-56 | The page starts loading, with no record, no error and no season open. The request is issued only when the route has an id. The view is "loading". |
| `TVDetail.TVDetailPage.CurrentView` | src/pages/TVDetail.tsx:62-68 | The view is "loading" exactly while `loading` is set. |
| `TVDetail.TVDetailPage.FetchSucceeded` | src/pages/TVDetail.tsx:48-51 | The record is stored and loading ends. The view shows the record. |
| `TVDetail.TVDetailPage.FetchFailed` | src/pages/TVDetail.tsx:52-55 | The series error message is set and loading ends. The view shows the error. |
| `TVDetail.TVDetailPage.ClickSeason` | src/pages/TVDetail.tsx:177-179 | Clicking the open season closes it. Clicking any other season opens that one alone. |
| `TVDetail.TVDetailPage.ShownSeasons` | src/pages/TVDetail.tsx:193 | For the loaded record, a season's details are shown exactly when its index is the open one. |
| `MovieDetail.CastSection` | src/pages/MovieDetail.tsx:135-141 | The section is present exactly when the cast is present and non-empty. It then holds the first `min(10, length)` entries, in order, and at least one. |
| `MovieDetail.GenresSection` | src/pages/MovieDetail.tsx:108-114 | The section is present exactly when there is at least one genre. It then holds the joined genre line. |
| `MovieDetail.MovieDetailPage.constructor` | src/pages/MovieDetail.tsx:26-44 | The page starts loading, with no record and no error. The request is issued only when the route has an id. The view is "loading". |
| `MovieDetail.MovieDetailPage.CurrentView` | src/pages/MovieDetail.tsx:50-56 | The view is "loading" exactly while `loading` is set. |
| `MovieDetail.MovieDetailPage.FetchSucceeded` | src/pages/MovieDetail.tsx:36-39 | The movie is stored and loading ends. The view shows the movie. |
| `MovieDetail.MovieDetailPage.FetchFailed` | src/pages/MovieDetail.tsx:40-43 | The movie error message is set and loading ends. The view shows the error. |

## Left out

- The TMDB client in `src/services/tmdb.ts` is not modelled: `fetch`, the API key, URLs and `res.json()`. Each listing query is an abstract oracle result (`Fetched`). Each details request is one of its two callbacks.
- Local storage and JSON are not modelled. The "myList" slot is an optional sequence, so the model has no unparsable slot. `JSON.parse` at `src/pages/Explore.tsx:52` has no error handling, so such a slot would throw. The model also has no empty-string slot, which the page skips as falsy.
- Toast texts, images, poster placeholders, links, animations and all other JSX rendering are presentation. Notifications are abstract `Notice` values.
- `vote_average` and its `toFixed(1)` display are floating point and display-only.
- The tabs are a four-valued datatype rather than strings, because the page only ever sets the four keys of its tab bar.
- The model does not capture when React runs effects or in which order async responses arrive. The methods are the effect bodies and callbacks, called in whatever order the environment chooses. A stale response overwriting newer state is a concurrency hazard and is not modelled.
- A detail page whose route id changes while it stays mounted is not modelled. The source refetches without resetting `loading`, `error` or `openSeason`. The model covers one request per mount.
- `MovieDetail.MovieDetails.credits` merges "no credits" and "credits without a cast" into `None`. The page treats both alike through `?.`.
- `src/App.tsx` (navigation and the blank-search guard), `src/pages/Home.tsx` (parallel fetching and carousel scrolling), `src/pages/Search.tsx` (a fetch wrapper) and `tailwind.config.cjs` (styling) are not part of this model.
