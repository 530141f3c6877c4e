/** The public menu page: it loads the whole menu file (no veg filter),
    remembers a load error until the next load, and shows the dishes the
    filter, search and sort leave; an Add button hands the dish to the
    cart, which checks it. */
module MenuPage {
  import opened Seqs
  import opened Text
  import opened Catalog
  import opened EventBus
  import opened Recommendations
  import opened ShopCart
  import opened MenuView

  const LOAD_ERROR: string := "Unable to load menu. Please try again."

  /** render(): the skeleton while loading, then the error if there is one,
      then the pipeline's dishes. */
  function Screen(loading: bool, error: Option<string>, menu: seq<Dish>, filter: string, search: string, sort: string, collate: string -> real): Grid
  {
    if loading then Skeleton
    else if error.Some? then LoadFailed(error.value)
    else Shown(menu, filter, search, sort, collate)
  }

  /** While loading only the skeleton is shown and an error hides the
      dishes; with neither, the grid is the cards exactly when some dish of
      the menu passes the filter and the search, and the cards are such
      dishes. */
  lemma ScreenMeans(loading: bool, error: Option<string>, menu: seq<Dish>, filter: string, search: string, sort: string, collate: string -> real)
    ensures var g := Screen(loading, error, menu, filter, search, sort, collate);
      && (g.Skeleton? <==> loading)
      && (g.LoadFailed? <==> !loading && error.Some?)
      && (g.Cards? <==> !loading && error.None? && exists i :: 0 <= i < |menu| && Passes(menu[i], filter, search))
      && (g.Cards? ==> forall i :: 0 <= i < |g.dishes| ==> g.dishes[i] in menu && Passes(g.dishes[i], filter, search))
  {
    var g := Screen(loading, error, menu, filter, search, sort, collate);
    ShownMeans(menu, filter, search, sort, collate);
    if g.Cards? {
      forall i | 0 <= i < |g.dishes| ensures g.dishes[i] in menu {
        assert g.dishes[i] in multiset(g.dishes);
      }
    }
  }

  /** onClickAdd: the dish goes to the cart's addItem with quantity 1, and
      the cart refuses a dish without id, with a blank name or without a
      price. */
  method OnClickAdd(cart: Cart, id: string, name: string, price: Option<real>)
    modifies cart`lines, cart.bus`events, cart.ai`sessionAdds, cart.ai`co
    ensures id == "" || !IsNonEmpty(name) || price.None? ==>
      && cart.lines == old(cart.lines) && cart.bus.events == old(cart.bus.events)
      && cart.ai.sessionAdds == old(cart.ai.sessionAdds) && cart.ai.co == old(cart.ai.co)
    ensures id != "" && IsNonEmpty(name) && price.Some? ==>
      && cart.lines == Cleaned(Added(old(cart.lines), id, name, price.value, 1))
      && cart.bus.events == AfterEmit(old(cart.bus.events), "cart:updated")
      && cart.ai.sessionAdds == Tracked(old(cart.ai.sessionAdds), id)
      && cart.ai.co == CoAfter(old(cart.ai.co), id, Ids(cart.lines))
  {
    cart.AddItem(id, name, price, 1);
  }

  class Page {
    /** The rank String.prototype.localeCompare orders dish names by. */
    const collate: string -> real
    var menu: seq<Dish>
    var filtered: seq<Dish>
    var filter: string
    var search: string
    var sort: string
    var loading: bool
    var error: Option<string>
    var grid: Grid
    /** The filter and sort kept in localStorage. */
    var storedFilter: string
    var storedSort: string
    /** How many times the menu file was fetched. */
    var fetches: nat

    /** The initial state, from the stored filter and sort. */
    constructor (collate: string -> real, storedFilter: string, storedSort: string)
      ensures this.collate == collate
      ensures this.storedFilter == storedFilter && this.storedSort == storedSort
      ensures filter == FilterChoice(storedFilter) && sort == SortChoice(storedSort) && search == ""
      ensures menu == [] && filtered == [] && loading && error.None?
      ensures grid == Blank && fetches == 0
    {
      this.collate := collate;
      this.storedFilter := storedFilter;
      this.storedSort := storedSort;
      filter := FilterChoice(storedFilter);
      sort := SortChoice(storedSort);
      search := "";
      menu := [];
      filtered := [];
      loading := true;
      error := None;
      grid := Blank;
      fetches := 0;
    }

    /** render() */
    method Render()
      modifies this`filtered, this`grid
      ensures grid == Screen(loading, error, menu, filter, search, sort, collate)
      ensures !loading && error.None? ==> filtered == ApplyPipeline(menu, filter, search, sort, collate)
      ensures loading || error.Some? ==> filtered == old(filtered)
    {
      if loading {
        grid := Skeleton;
        return;
      }
      if error.Some? {
        grid := LoadFailed(error.value);
        return;
      }
      filtered := ApplyPipeline(menu, filter, search, sort, collate);
      if |filtered| == 0 {
        grid := NoDishes;
        return;
      }
      grid := Cards(filtered);
    }

    /** loadMenu(force) with the fetch's outcome; a failed request, an HTTP
        error status and a body that is not JSON are all FetchFailed. A
        loaded menu is only re-rendered unless the load is forced. */
    method LoadMenu(force: bool, fetched: Fetched)
      modifies this`menu, this`filtered, this`loading, this`error, this`grid, this`fetches
      ensures !force && old(menu) != [] ==>
        && menu == old(menu) && loading == old(loading) && error == old(error) && fetches == old(fetches)
      ensures force || old(menu) == [] ==>
        && fetches == old(fetches) + 1 && !loading
        && (fetched.FetchFailed? ==> menu == old(menu) && error == Some(LOAD_ERROR))
        && (fetched.Fetched? ==> menu == Received(fetched.data) && error.None?)
      ensures grid == Screen(loading, error, menu, filter, search, sort, collate)
    {
      if !force && |menu| > 0 {
        Render();
        return;
      }
      loading := true;
      error := None;
      Render();
      fetches := fetches + 1;
      Settle(fetched);
    }

    /** The end of loadMenu once the request has settled: the error or the
        new menu, then render(). */
    method Settle(fetched: Fetched)
      modifies this`menu, this`filtered, this`loading, this`error, this`grid
      ensures !loading
      ensures fetched.FetchFailed? ==> menu == old(menu) && error == Some(LOAD_ERROR)
      ensures fetched.Fetched? ==> menu == Received(fetched.data) && error == old(error)
      ensures grid == Screen(loading, error, menu, filter, search, sort, collate)
    {
      match fetched
      case FetchFailed =>
        loading := false;
        error := Some(LOAD_ERROR);
        Render();
      case Fetched(data) =>
        menu := Received(data);
        loading := false;
        Render();
    }

    /** A filter button, or GKKMenu.setFilter: `f || 'All'`, stored, then
        render(). */
    method SetFilter(f: string)
      modifies this`filter, this`storedFilter, this`filtered, this`grid
      ensures filter == FilterChoice(f) && storedFilter == filter
      ensures grid == Screen(loading, error, menu, filter, search, sort, collate)
    {
      filter := FilterChoice(f);
      storedFilter := filter;
      Render();
    }

    /** The search box's input handler, after its debounce. */
    method OnSearchInput(v: string)
      modifies this`search, this`filtered, this`grid
      ensures search == SearchTerm(v)
      ensures grid == Screen(loading, error, menu, filter, search, sort, collate)
    {
      search := SearchTerm(v);
      Render();
    }

    /** GKKMenu.setSearch: lower-cased but not trimmed. */
    method SetSearch(s: string)
      modifies this`search, this`filtered, this`grid
      ensures search == Lower(s)
      ensures grid == Screen(loading, error, menu, filter, search, sort, collate)
    {
      search := Lower(s);
      Render();
    }

    /** The sort select's change handler, or GKKMenu.setSort. */
    method SetSort(s: string)
      modifies this`sort, this`storedSort, this`filtered, this`grid
      ensures sort == SortChoice(s) && storedSort == sort
      ensures grid == Screen(loading, error, menu, filter, search, sort, collate)
    {
      sort := SortChoice(s);
      storedSort := sort;
      Render();
    }
  }
}
