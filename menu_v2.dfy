/** The storefront's menu page: it loads the menu file, keeps only the veg
    dishes, asks the recommender for three suggestions, and shows the dishes
    the filter, search and sort leave; an Add button puts a dish in the
    cart. */
module MenuPageV2 {
  import opened Seqs
  import opened Text
  import opened Catalog
  import opened EventBus
  import opened Recommendations
  import opened ShopCart
  import opened MenuView

  const LOAD_FAILED: string := "Failed to load menu. Please try again later."
  const SUGGEST_LIMIT: int := 3

  /** `i?.id` */
  predicate HasId(d: Dish)
  {
    d.id != ""
  }

  /** What the load asks the recommender for: suggest(menu dishes with an
      id, limit 3, no excluded ids), against the cart's ids at that moment. */
  function LoadSuggestions(menu: seq<Dish>, hour: int, adds: map<string, nat>, co: CoMap, cartIds: seq<string>): seq<Dish>
  {
    var items := Filter(menu, HasId);
    if items == [] then []
    else Ranked(items, Scores(items, hour, [] + cartIds, adds, co, cartIds), SUGGEST_LIMIT)
  }

  /** After a load of `data`, the page suggests at most three veg dishes of
      the file, each with an id and none already in the cart. */
  lemma LoadSuggestionsMeans(data: seq<Dish>, hour: int, adds: map<string, nat>, co: CoMap, cartIds: seq<string>)
    ensures var r := LoadSuggestions(OnlyVeg(data), hour, adds, co, cartIds);
      && |r| <= SUGGEST_LIMIT
      && multiset(r) <= multiset(data)
      && (forall i :: 0 <= i < |r| ==> r[i].veg && r[i].id != "" && r[i].id !in cartIds)
  {
    var menu := OnlyVeg(data);
    var items := Filter(menu, HasId);
    if items != [] {
      var r := LoadSuggestions(menu, hour, adds, co, cartIds);
      SuggestionsMeans(items, hour, SUGGEST_LIMIT, [], adds, co, cartIds);
      PartHolds(r, menu, IsVeg);
    }
  }

  /** A click on Add, as written, counts the dish twice for the recommender:
      the cart's addItem already calls trackAdd and the page calls it again,
      so the dish gains two session adds (four points of score instead of
      two) and every other dish in the cart two co-occurrences. */
  lemma DoubleTrackCounts(adds: map<string, nat>, co: CoMap, id: string, ids: seq<string>, y: string)
    requires y != id
    ensures Adds(Tracked(Tracked(adds, id), id), id) == Adds(adds, id) + 2
    ensures Count(CoAfter(CoAfter(co, id, ids), id, ids), id, y) == Count(co, id, y) + 2 * multiset(ids)[y]
    ensures y in ids ==> Count(CoAfter(CoAfter(co, id, ids), id, ids), id, y) != Count(CoAfter(co, id, ids), id, y)
  {
    CoAfterCounts(co, id, ids, id, y);
    CoAfterCounts(CoAfter(co, id, ids), id, ids, id, y);
  }

  /** A click on an Add button, AS WRITTEN: an id, a name and a finite
      price are required; the cart's addItem (which counts the add) is
      followed by a second trackAdd, so an added dish is counted twice, and
      a dish the cart refuses for a blank name is counted once. */
  method OnAddClickAsWritten(cart: Cart, id: string, name: string, price: Option<real>)
    modifies cart`lines, cart.bus`events, cart.ai`sessionAdds, cart.ai`co
    ensures id == "" || name == "" || price.None? ==>
      && cart.lines == old(cart.lines) && cart.bus.events == old(cart.bus.events)
      && cart.ai.sessionAdds == old(cart.ai.sessionAdds) && cart.ai.co == old(cart.ai.co)
    ensures id != "" && name != "" && price.Some? && IsNonEmpty(name) ==>
      && cart.lines == Cleaned(Added(old(cart.lines), id, name, price.value, 1))
      && cart.bus.events == AfterEmit(old(cart.bus.events), "cart:updated")
      && cart.ai.sessionAdds == Tracked(Tracked(old(cart.ai.sessionAdds), id), id)
      && cart.ai.co == CoAfter(CoAfter(old(cart.ai.co), id, Ids(cart.lines)), id, Ids(cart.lines))
    ensures id != "" && name != "" && price.Some? && !IsNonEmpty(name) ==>
      && cart.lines == old(cart.lines) && cart.bus.events == old(cart.bus.events)
      && cart.ai.sessionAdds == Tracked(old(cart.ai.sessionAdds), id)
      && cart.ai.co == CoAfter(old(cart.ai.co), id, Ids(cart.lines))
  {
    if id == "" || name == "" || price.None? {
      return;
    }
    cart.AddItem(id, name, price, 1);
    cart.ai.TrackAdd(id, Ids(cart.lines));
  }

  /** A click on an Add button with the second trackAdd dropped: a dish is
      counted once, when and only when the cart takes it. */
  method OnAddClick(cart: Cart, id: string, name: string, price: Option<real>)
    modifies cart`lines, cart.bus`events, cart.ai`sessionAdds, cart.ai`co
    ensures id == "" || !IsNonEmpty(name) || price.None? ==>
      && cart.lines == old(cart.lines) && cart.bus.events == old(cart.bus.events)
      && cart.ai.sessionAdds == old(cart.ai.sessionAdds) && cart.ai.co == old(cart.ai.co)
    ensures id != "" && IsNonEmpty(name) && price.Some? ==>
      && cart.lines == Cleaned(Added(old(cart.lines), id, name, price.value, 1))
      && cart.bus.events == AfterEmit(old(cart.bus.events), "cart:updated")
      && cart.ai.sessionAdds == Tracked(old(cart.ai.sessionAdds), id)
      && cart.ai.co == CoAfter(old(cart.ai.co), id, Ids(cart.lines))
  {
    if id == "" || name == "" || price.None? {
      return;
    }
    cart.AddItem(id, name, price, 1);
  }

  class Page {
    /** window.Cart; its recommender is window.AI. */
    const cart: Cart
    /** The rank String.prototype.localeCompare orders dish names by. */
    const collate: string -> real
    var menu: seq<Dish>
    var filtered: seq<Dish>
    var filter: string
    var search: string
    var sort: string
    var loading: bool
    var aiSuggestions: seq<Dish>
    /** The "Recommended for you" strip. */
    var strip: seq<Dish>
    var grid: Grid
    /** The filter and sort kept in localStorage. */
    var storedFilter: string
    var storedSort: string
    /** How many times the menu file was fetched. */
    var fetches: nat

    /** The initial state, from the stored filter and sort. */
    constructor (cart: Cart, collate: string -> real, storedFilter: string, storedSort: string)
      ensures this.cart == cart && this.collate == collate
      ensures this.storedFilter == storedFilter && this.storedSort == storedSort
      ensures filter == FilterChoice(storedFilter) && sort == SortChoice(storedSort) && search == ""
      ensures menu == [] && filtered == [] && loading && aiSuggestions == [] && strip == []
      ensures grid == Blank && fetches == 0
    {
      this.cart := cart;
      this.collate := collate;
      this.storedFilter := storedFilter;
      this.storedSort := storedSort;
      filter := FilterChoice(storedFilter);
      sort := SortChoice(storedSort);
      search := "";
      menu := [];
      filtered := [];
      loading := true;
      aiSuggestions := [];
      strip := [];
      grid := Blank;
      fetches := 0;
    }

    /** render(): the skeleton while loading, otherwise the pipeline's dishes
        and the suggestion strip. */
    method Render()
      modifies this`filtered, this`grid, this`strip
      ensures loading ==> grid == Skeleton && strip == [] && filtered == old(filtered)
      ensures !loading ==>
        && filtered == ApplyPipeline(menu, filter, search, sort, collate)
        && grid == Shown(menu, filter, search, sort, collate)
        && strip == aiSuggestions
    {
      strip := [];
      if loading {
        grid := Skeleton;
        return;
      }
      filtered := ApplyPipeline(menu, filter, search, sort, collate);
      strip := aiSuggestions;
      if |filtered| == 0 {
        grid := NoDishes;
        return;
      }
      grid := Cards(filtered);
    }

    /** loadMenu(force) with the fetch's outcome and the hour of the day. A
        loaded menu is only re-rendered unless the load is forced. */
    method LoadMenu(force: bool, fetched: Fetched, hour: int)
      modifies this`menu, this`filtered, this`loading, this`aiSuggestions, this`strip, this`grid, this`fetches
      modifies cart.ai.bus`events
      ensures !force && old(menu) != [] ==>
        && menu == old(menu) && loading == old(loading) && aiSuggestions == old(aiSuggestions)
        && fetches == old(fetches) && cart.ai.bus.events == old(cart.ai.bus.events)
        && (loading ==> grid == Skeleton)
        && (!loading ==> grid == Shown(menu, filter, search, sort, collate) && strip == aiSuggestions)
      ensures force || old(menu) == [] ==> fetches == old(fetches) + 1 && !loading
      ensures (force || old(menu) == []) && fetched.FetchFailed? ==>
        && menu == old(menu) && aiSuggestions == [] && grid == LoadFailed(LOAD_FAILED)
        && cart.ai.bus.events == old(cart.ai.bus.events)
      ensures (force || old(menu) == []) && fetched.Fetched? ==>
        && menu == OnlyVeg(Received(fetched.data))
        && aiSuggestions == LoadSuggestions(menu, hour, cart.ai.sessionAdds, cart.ai.co, Ids(cart.lines))
        && grid == Shown(menu, filter, search, sort, collate)
        && strip == aiSuggestions
        && cart.ai.bus.events ==
             (if Filter(menu, HasId) == [] then old(cart.ai.bus.events)
              else AfterEmit(old(cart.ai.bus.events), "ai:suggest"))
    {
      if !force && |menu| > 0 {
        Render();
        return;
      }
      loading := true;
      aiSuggestions := [];
      grid := Skeleton;
      fetches := fetches + 1;
      match fetched
      case FetchFailed =>
        loading := false;
        grid := LoadFailed(LOAD_FAILED);
      case Fetched(data) =>
        Loaded(data, hour);
    }

    /** The successful end of loadMenu: the veg dishes of the body become the
        menu, the recommender is asked for suggestions, and the page is
        rendered. */
    method Loaded(data: Option<seq<Dish>>, hour: int)
      modifies this`menu, this`filtered, this`loading, this`aiSuggestions, this`strip, this`grid
      modifies cart.ai.bus`events
      ensures menu == OnlyVeg(Received(data)) && !loading
      ensures aiSuggestions == LoadSuggestions(menu, hour, cart.ai.sessionAdds, cart.ai.co, Ids(cart.lines))
      ensures filtered == ApplyPipeline(menu, filter, search, sort, collate)
      ensures grid == Shown(menu, filter, search, sort, collate) && strip == aiSuggestions
      ensures cart.ai.bus.events ==
        (if Filter(menu, HasId) == [] then old(cart.ai.bus.events)
         else AfterEmit(old(cart.ai.bus.events), "ai:suggest"))
    {
      menu := OnlyVeg(Received(data));
      loading := false;
      AskSuggestions(hour);
      Render();
    }

    /** suggest(menu dishes with an id, limit 3) against the cart, kept as the
        page's suggestions. */
    method AskSuggestions(hour: int)
      modifies this`aiSuggestions, cart.ai.bus`events
      ensures aiSuggestions == LoadSuggestions(menu, hour, cart.ai.sessionAdds, cart.ai.co, Ids(cart.lines))
      ensures cart.ai.bus.events ==
        (if Filter(menu, HasId) == [] then old(cart.ai.bus.events)
         else AfterEmit(old(cart.ai.bus.events), "ai:suggest"))
    {
      aiSuggestions := cart.ai.Suggest(Filter(menu, HasId), hour, SUGGEST_LIMIT, [], Ids(cart.lines));
    }

    /** A filter button, or GKKMenu.setFilter: `f || 'All'`, stored, then
        render(). */
    method SetFilter(f: string)
      modifies this`filter, this`storedFilter, this`filtered, this`grid, this`strip
      ensures filter == FilterChoice(f) && storedFilter == filter
      ensures loading ==> grid == Skeleton
      ensures !loading ==> grid == Shown(menu, filter, search, sort, collate)
    {
      filter := FilterChoice(f);
      storedFilter := filter;
      Render();
    }

    /** The search box's input handler, after its debounce. */
    method OnSearchInput(v: string)
      modifies this`search, this`filtered, this`grid, this`strip
      ensures search == SearchTerm(v)
      ensures loading ==> grid == Skeleton
      ensures !loading ==> grid == Shown(menu, filter, search, sort, collate)
    {
      search := SearchTerm(v);
      Render();
    }

    /** GKKMenu.setSearch: lower-cased but, unlike the search box, not
        trimmed. */
    method SetSearch(s: string)
      modifies this`search, this`filtered, this`grid, this`strip
      ensures search == Lower(s)
      ensures loading ==> grid == Skeleton
      ensures !loading ==> grid == Shown(menu, filter, search, sort, collate)
    {
      search := Lower(s);
      Render();
    }

    /** The sort select's change handler, or GKKMenu.setSort. */
    method SetSort(s: string)
      modifies this`sort, this`storedSort, this`filtered, this`grid, this`strip
      ensures sort == SortChoice(s) && storedSort == sort
      ensures loading ==> grid == Skeleton
      ensures !loading ==> grid == Shown(menu, filter, search, sort, collate)
    {
      sort := SortChoice(s);
      storedSort := sort;
      Render();
    }
  }
}
