/** The explore page: which listing query the (type, tab) pair selects, the
    genre filter and title normalisation applied to its results, the
    favourites list ("Mi lista") with its persisted copy, and the choice of
    the list on screen. */
module Explore {
  import opened Wrappers
  import opened Js
  import opened Catalog

  /** The four tabs of the page. */
  datatype Tab = Popular | Trending | Top | MyList

  /** The notifications the page raises (toasts). */
  datatype Notice = Added(item: Item) | Removed(item: Item) | LoadFailed

  /* ---------------- Query selection ---------------- */

  /** The listing query fetched for the active type and tab. The "mylist" tab
      has no query of its own and falls through to the popular one. */
  function SelectQuery(t: MediaType, tab: Tab): (q: Query)
    ensures QueryMedia(q) == t
    ensures QueryCategory(q) == TrendingList <==> tab == Trending
    ensures QueryCategory(q) == TopRatedList <==> tab == Top
    ensures QueryCategory(q) == PopularList <==> (tab == Popular || tab == MyList)
  {
    match (t, tab)
    case (Movie, Trending) => TrendingMovies
    case (Movie, Top) => TopRatedMovies
    case (Movie, _) => PopularMovies
    case (Tv, Trending) => TrendingTV
    case (Tv, Top) => TopRatedTV
    case (Tv, _) => PopularTV
  }

  /** Every one of the six listing queries is selected by some (type, tab) pair,
      and the pair's type and category are recovered from the query. */
  lemma SelectQueryReachesAll(q: Query)
    ensures SelectQuery(QueryMedia(q), CategoryTab(QueryCategory(q))) == q
  {
  }

  /** The tab that shows a listing category. */
  function CategoryTab(c: Category): Tab {
    match c
    case PopularList => Popular
    case TopRatedList => Top
    case TrendingList => Trending
  }

  /* ---------------- Genre filter and normalisation ---------------- */

  /** Whether an item survives the genre filter. A null genre, and also the
      genre 0 (a falsy number), apply no filter; otherwise the item's
      `genre_ids` must be present and contain the genre. */
  predicate KeepsGenre(genre: Option<int>, item: Item)
    ensures genre.None? || genre == Some(0) ==> KeepsGenre(genre, item)
    ensures genre.Some? && genre.value != 0 && item.genreIds.None? ==> !KeepsGenre(genre, item)
  {
    match genre
    case None => true
    case Some(g) => g == 0 || (item.genreIds.Some? && g in item.genreIds.value)
  }

  function GenreTest(genre: Option<int>): Item -> bool {
    item => KeepsGenre(genre, item)
  }

  /** The results that survive the genre filter, in their original order. */
  function FilterByGenre(results: seq<Item>, genre: Option<int>): (r: seq<Item>)
    ensures |r| <= |results|
    ensures forall x :: x in r <==> x in results && KeepsGenre(genre, x)
  {
    Filter(results, GenreTest(genre))
  }

  /** `{...item, title: item.title || item.name}`: a unified title, every other
      field unchanged. */
  function Normalize(item: Item): (r: Item)
    ensures r.(title := item.title) == item
    ensures Truthy(item.title) ==> r.title == item.title
    ensures !Truthy(item.title) ==> r.title == item.name
    ensures Truthy(r.title) <==> Truthy(item.title) || Truthy(item.name)
  {
    item.(title := Or(item.title, item.name))
  }

  /** The items the page stores after a successful fetch: the genre filter,
      then normalisation. */
  function Listing(results: seq<Item>, genre: Option<int>): (r: seq<Item>)
    ensures |r| <= |results|
    ensures forall i :: 0 <= i < |r| ==> KeepsGenre(genre, r[i])
    ensures forall i :: 0 <= i < |r| ==> Truthy(r[i].title) || !Truthy(r[i].name)
  {
    var f := FilterByGenre(results, genre);
    assert forall i :: 0 <= i < |f| ==> f[i] in f;
    Map(f, Normalize)
  }

  /** Mapping works part by part on a concatenation. */
  lemma MapAppend<T, U>(a: seq<T>, b: seq<T>, f: T -> U)
    ensures Map(a + b, f) == Map(a, f) + Map(b, f)
  {
  }

  /** The listing of concatenated results is the concatenation of the listings:
      the page keeps the provider's order. */
  lemma ListingAppend(a: seq<Item>, b: seq<Item>, genre: Option<int>)
    ensures Listing(a + b, genre) == Listing(a, genre) + Listing(b, genre)
  {
    FilterAppend(a, b, GenreTest(genre));
    MapAppend(FilterByGenre(a, genre), FilterByGenre(b, genre), Normalize);
  }

  /** One result is listed, normalised, exactly when it survives the filter. */
  lemma ListingSingle(item: Item, genre: Option<int>)
    ensures Listing([item], genre) == if KeepsGenre(genre, item) then [Normalize(item)] else []
  {
    assert [item][1..] == [];
  }

  /** With no genre selected the stored items are the fetched results in the
      same order, each normalised. */
  lemma ListingWithoutGenre(results: seq<Item>)
    ensures |Listing(results, None)| == |results|
    ensures forall i :: 0 <= i < |results| ==> Listing(results, None)[i] == Normalize(results[i])
  {
    FilterKeepsAll(results, GenreTest(None));
  }

  /** With a genre selected, every stored item carries that genre, and every
      fetched result carrying it is stored, normalised; results with no
      `genre_ids` are dropped. */
  lemma ListingWithGenre(results: seq<Item>, g: int)
    requires g != 0
    ensures forall x :: x in Listing(results, Some(g)) ==> x.genreIds.Some? && g in x.genreIds.value
    ensures forall y :: y in results ==>
              (Normalize(y) in Listing(results, Some(g)) <== y.genreIds.Some? && g in y.genreIds.value)
    ensures forall y :: y in results && y.genreIds.None? ==> y !in FilterByGenre(results, Some(g))
  {
  }

  /** Normalisation does not touch `genre_ids`, so filtering before or after it
      gives the same list. */
  lemma {:induction false} FilterThenNormalize(results: seq<Item>, genre: Option<int>)
    ensures Listing(results, genre) == Filter(Map(results, Normalize), GenreTest(genre))
  {
    if results != [] {
      FilterThenNormalize(results[1..], genre);
      assert Map(results, Normalize)[1..] == Map(results[1..], Normalize);
      var head := results[0];
      assert KeepsGenre(genre, Normalize(head)) == KeepsGenre(genre, head);
      assert Map(results, Normalize)[0] == Normalize(head);
      ListingAppend([head], results[1..], genre);
      assert [head] + results[1..] == results;
      ListingSingle(head, genre);
    }
  }

  /* ---------------- Favourites list ---------------- */

  function HasId(id: int): Item -> bool {
    (m: Item) => m.id == id
  }

  function LacksId(id: int): Item -> bool {
    (m: Item) => m.id != id
  }

  /** `myList.some(m => m.id === id)`. */
  function InMyList(list: seq<Item>, id: int): (r: bool)
    ensures r <==> exists i :: 0 <= i < |list| && list[i].id == id
  {
    Any(list, HasId(id))
  }

  /** `list.filter(m => m.id !== id)`: every entry with the id is dropped. */
  function RemoveId(list: seq<Item>, id: int): (r: seq<Item>)
    ensures |r| <= |list|
    ensures !InMyList(r, id)
    ensures forall m: Item :: m.id != id ==> (m in r <==> m in list)
  {
    var r := Filter(list, LacksId(id));
    assert forall i :: 0 <= i < |r| ==> r[i] in r;
    r
  }

  /** Removing from both halves of a list is removing from the whole: the
      entries kept stay in order. */
  lemma RemoveIdAppend(a: seq<Item>, b: seq<Item>, id: int)
    ensures RemoveId(a + b, id) == RemoveId(a, id) + RemoveId(b, id)
  {
    FilterAppend(a, b, LacksId(id));
  }

  /** Removing an id the list does not hold changes nothing. */
  lemma RemoveAbsentId(list: seq<Item>, id: int)
    requires !InMyList(list, id)
    ensures RemoveId(list, id) == list
  {
    FilterKeepsAll(list, LacksId(id));
  }

  /** The list after toggling `item`: all entries with its id removed when one
      is present, otherwise `item` appended at the end. */
  function Toggled(list: seq<Item>, item: Item): (r: seq<Item>)
    ensures InMyList(r, item.id) <==> !InMyList(list, item.id)
    ensures InMyList(list, item.id) ==> r == RemoveId(list, item.id)
    ensures !InMyList(list, item.id) ==> r == list + [item]
    ensures forall m: Item :: m.id != item.id ==> (m in r <==> m in list)
  {
    if InMyList(list, item.id) then RemoveId(list, item.id)
    else (
      var r := list + [item];
      assert r[|list|] == item;
      r)
  }

  /** Toggling an absent item twice restores the list. */
  lemma ToggleTwiceRestores(list: seq<Item>, item: Item)
    requires !InMyList(list, item.id)
    ensures Toggled(Toggled(list, item), item) == list
  {
    RemoveIdAppend(list, [item], item.id);
    RemoveAbsentId(list, item.id);
    assert Filter([item], LacksId(item.id)) == [] by {
      assert [item][1..] == [];
    }
  }

  /** Toggling a present item twice is not the identity: the duplicates with its
      id are gone and the toggled item is moved to the end. */
  lemma ToggleTwicePresent(list: seq<Item>, item: Item)
    requires InMyList(list, item.id)
    ensures Toggled(Toggled(list, item), item) == RemoveId(list, item.id) + [item]
  {
  }

  /* ---------------- Small UI rules ---------------- */

  /** The `type` URL parameter: only "tv" and "movie" name a media type. */
  function TypeFromParam(param: Option<string>): (r: Option<MediaType>)
    ensures r.Some? <==> param == Some("tv") || param == Some("movie")
    ensures r.Some? ==> TypeName(r.value) == param.value
  {
    if param == Some("tv") then Some(Tv)
    else if param == Some("movie") then Some(Movie)
    else None
  }

  /** The list on screen: the favourites on the "mylist" tab, whatever the type
      and genre; the fetched items on every other tab. */
  function Displayed(tab: Tab, myList: seq<Item>, items: seq<Item>): (r: seq<Item>)
    ensures tab == MyList ==> r == myList
    ensures tab != MyList ==> r == items
  {
    if tab == MyList then myList else items
  }

  /* ---------------- The page's state ---------------- */

  class ExplorePage {
    var activeTab: Tab
    var activeType: MediaType
    var activeGenre: Option<int>
    var items: seq<Item>
    var myList: seq<Item>
    /** The "myList" slot of local storage; `None` while nothing was written. */
    var persisted: Option<seq<Item>>
    var notices: seq<Notice>

    /** The persisted slot and the in-memory list agree: either the slot holds
        the list, or there is no slot and the list is empty. */
    ghost predicate Valid()
      reads this
    {
      persisted == Some(myList) || (persisted == None && myList == [])
    }

    /** Mounting: the initial state, then the favourites read from storage. */
    constructor (stored: Option<seq<Item>>)
      ensures Valid()
      ensures activeTab == Popular && activeType == Movie && activeGenre == None
      ensures items == [] && notices == []
      ensures persisted == stored
      ensures myList == (if stored.Some? then stored.value else [])
    {
      activeTab, activeType, activeGenre := Popular, Movie, None;
      items, notices := [], [];
      myList := [];
      persisted := stored;
      if stored.Some? {
        myList := stored.value;
      }
    }

    function IsInMyList(id: int): (r: bool)
      reads this
      ensures r <==> exists i :: 0 <= i < |myList| && myList[i].id == id
    {
      InMyList(myList, id)
    }

    function DisplayedItems(): (r: seq<Item>)
      reads this
      ensures activeTab == MyList ==> r == myList
      ensures activeTab != MyList ==> r == items
    {
      Displayed(activeTab, myList, items)
    }

    /** The effect that reads `?type=` from the location. */
    method ReadTypeParam(param: Option<string>)
      modifies this`activeType
      ensures TypeFromParam(param).Some? ==> activeType == TypeFromParam(param).value
      ensures TypeFromParam(param).None? ==> activeType == old(activeType)
    {
      var t := TypeFromParam(param);
      if t.Some? {
        activeType := t.value;
      }
    }

    method ClickType(t: MediaType)
      modifies this`activeType
      ensures activeType == t
    {
      activeType := t;
    }

    method ClickTab(tab: Tab)
      modifies this`activeTab
      ensures activeTab == tab
      ensures DisplayedItems() == Displayed(tab, myList, items)
    {
      activeTab := tab;
    }

    method ClickGenre(g: int)
      modifies this`activeGenre
      ensures activeGenre == Toggle(old(activeGenre), g)
    {
      activeGenre := Toggle(activeGenre, g);
    }

    /** The data effect: fetch the selected query through `catalog` (on every
        tab, "mylist" included), then store the filtered, normalised results;
        on failure raise a notice and keep the items. */
    method FetchData(catalog: Query -> Fetched)
      modifies this`items, this`notices
      ensures catalog(SelectQuery(activeType, activeTab)).Results? ==>
                items == Listing(catalog(SelectQuery(activeType, activeTab)).results, activeGenre) &&
                notices == old(notices)
      ensures catalog(SelectQuery(activeType, activeTab)).FetchError? ==>
                items == old(items) && notices == old(notices) + [LoadFailed]
      ensures activeTab == MyList ==> DisplayedItems() == old(DisplayedItems())
    {
      var data := catalog(SelectQuery(activeType, activeTab));
      match data
      case Results(results) =>
        var filtered := FilterByGenre(results, activeGenre);
        items := Map(filtered, Normalize);
      case FetchError =>
        notices := notices + [LoadFailed];
    }

    /** `toggleMyList`: copy the list, look the id up, then drop every entry
        with it or append the item; store the new list and write it to the
        storage slot. */
    method ToggleMyList(item: Item)
      requires Valid()
      modifies this`myList, this`persisted, this`notices
      ensures Valid()
      ensures myList == Toggled(old(myList), item)
      ensures persisted == Some(myList)
      ensures IsInMyList(item.id) <==> !old(IsInMyList(item.id))
      ensures old(IsInMyList(item.id)) ==> notices == old(notices) + [Removed(item)]
      ensures !old(IsInMyList(item.id)) ==> notices == old(notices) + [Added(item)]
    {
      var updated := myList;
      var found := Find(updated, HasId(item.id));
      if found.Some? {
        updated := RemoveId(updated, item.id);
        notices := notices + [Removed(item)];
      } else {
        assert !InMyList(updated, item.id) by {
          forall i | 0 <= i < |updated| ensures updated[i].id != item.id {
            assert updated[i] in updated;
          }
        }
        updated := updated + [item];
        notices := notices + [Added(item)];
      }
      myList := updated;
      persisted := Some(updated);
    }
  }
}
