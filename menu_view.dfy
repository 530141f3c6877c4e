/** What the two menu pages share: the grid they show, the outcome of
    fetching the menu file, and the way a filter, sort or search value the
    user gives becomes page state. */
module MenuView {
  import opened Seqs
  import opened Text
  import opened Catalog

  /** The content of the menu grid. `Blank` is the grid before the first
      render. */
  datatype Grid = Blank | Skeleton | LoadFailed(msg: string) | NoDishes | Cards(dishes: seq<Dish>)

  /** The outcome of fetching /menu.json: a network or HTTP failure, or a
      body, None when the body is not an array. */
  datatype Fetched = FetchFailed | Fetched(data: Option<seq<Dish>>)

  /** `Array.isArray(data) ? data : []` */
  function Received(data: Option<seq<Dish>>): (r: seq<Dish>)
    ensures data.None? ==> r == []
    ensures data.Some? ==> r == data.value
  {
    if data.Some? then data.value else []
  }

  /** `f || FILTER_ALL`: never empty, and it selects the same dishes as the
      value given. */
  function FilterChoice(f: string): (r: string)
    ensures r != ""
    ensures f != "" ==> r == f
    ensures FilterKey(r) == FilterKey(f)
  {
    if f == "" then FILTER_ALL else f
  }

  /** `s || 'featured'`: never empty. */
  function SortChoice(s: string): (r: string)
    ensures r != ""
    ensures s != "" ==> r == s
  {
    if s == "" then SORT_DEFAULT else s
  }

  /** Storing the default sort in place of an empty one orders every list
      the same way. */
  lemma SortChoiceSame(items: seq<Dish>, s: string, collate: string -> real)
    ensures SortItems(items, SortChoice(s), collate) == SortItems(items, s, collate)
  {
    if s == "" {
      SortItemsMeans(items, SORT_DEFAULT, collate);
      SortItemsMeans(items, "", collate);
    }
  }

  /** The search box's value as the search: trimmed and lower-cased, so
      lower-casing it again changes nothing and it is empty exactly when
      the box holds only spaces. */
  function SearchTerm(v: string): (r: string)
    ensures Lower(r) == r
    ensures r == "" <==> Trim(v) == ""
  {
    Lower(Trim(v))
  }

  /** The grid once the menu is loaded: the dishes the pipeline keeps, or
      the "no dishes" note when it keeps none. */
  function Shown(menu: seq<Dish>, filter: string, search: string, sort: string, collate: string -> real): Grid
  {
    var f := ApplyPipeline(menu, filter, search, sort, collate);
    if f == [] then NoDishes else Cards(f)
  }

  /** The note appears exactly when no dish of the menu passes both the
      filter and the search; otherwise the cards are dishes of the menu that
      pass both, every such dish among them. */
  lemma ShownMeans(menu: seq<Dish>, filter: string, search: string, sort: string, collate: string -> real)
    ensures var g := Shown(menu, filter, search, sort, collate);
      && (g.NoDishes? || g.Cards?)
      && (g.NoDishes? <==> forall i :: 0 <= i < |menu| ==> !Passes(menu[i], filter, search))
      && (g.Cards? ==>
            && multiset(g.dishes) <= multiset(menu)
            && (forall i :: 0 <= i < |g.dishes| ==> Passes(g.dishes[i], filter, search))
            && (forall i :: 0 <= i < |menu| && Passes(menu[i], filter, search) ==> menu[i] in g.dishes))
  {
    var r := ApplyPipeline(menu, filter, search, sort, collate);
    PipelineMeans(menu, filter, search, sort, collate);
    if r != [] {
      assert r[0] in multiset(menu);
      var k :| 0 <= k < |menu| && menu[k] == r[0];
      assert Passes(menu[k], filter, search);
    }
    forall i | 0 <= i < |menu| && Passes(menu[i], filter, search)
      ensures menu[i] in r
    {
      assert menu[i] in multiset(menu);
      assert menu[i] in multiset(r);
    }
  }
}
