/** The menu and its list pipeline, shared by both menu pages: the category
    filter, the text search, the sort modes, and the picture address of a
    dish. A page applies sort after search after filter. */
module Catalog {
  import opened Seqs
  import opened Text
  import opened Html

  /** A dish of the menu file. Missing text is ""; `price` is None when it is
      missing or not a number; `veg` holds only for the JSON value true. */
  datatype Dish = Dish(
    id: string,
    name: string,
    desc: string,
    category: string,
    price: Option<real>,
    veg: bool,
    tags: seq<string>,
    img: string)

  const FILTER_ALL: string := "All"
  const SORT_DEFAULT: string := "featured"

  /** `item.price || 0` */
  function PriceOrZero(d: Dish): real
  {
    if d.price.Some? then d.price.value else 0.0
  }

  predicate IsVeg(d: Dish)
  {
    d.veg
  }

  /** onlyVeg: the dishes marked veg, in menu order. */
  function OnlyVeg(items: seq<Dish>): seq<Dish>
  {
    Filter(items, IsVeg)
  }

  lemma OnlyVegMeans(items: seq<Dish>)
    ensures var r := OnlyVeg(items);
      && IsSubseq(r, items)
      && (forall i :: 0 <= i < |r| ==> r[i].veg)
      && (forall i :: 0 <= i < |items| && items[i].veg ==> multiset(r)[items[i]] == multiset(items)[items[i]])
  {
    FilterIsSubseq(items, IsVeg);
  }

  /** The lower-cased filter, "All" when the stored filter is empty. */
  function FilterKey(filter: string): string
  {
    Lower(if filter == "" then FILTER_ALL else filter)
  }

  predicate InCategory(d: Dish, key: string)
  {
    Lower(d.category) == key
  }

  /** filterItems: every dish for "all" in any letter case, otherwise the
      dishes whose category equals the filter ignoring case. */
  function FilterItems(items: seq<Dish>, filter: string): seq<Dish>
  {
    var key := FilterKey(filter);
    if key == "all" then items else Filter(items, (d: Dish) => InCategory(d, key))
  }

  /** The search looks in the lower-cased name, description and category. */
  predicate MatchesSearch(d: Dish, search: string)
  {
    Contains(Lower(d.name), search) || Contains(Lower(d.desc), search) || Contains(Lower(d.category), search)
  }

  /** searchItems: every dish for an empty search. */
  function SearchItems(items: seq<Dish>, search: string): seq<Dish>
  {
    if search == "" then items else Filter(items, (d: Dish) => MatchesSearch(d, search))
  }

  /** The key each sort mode orders by, largest first. The name sort uses
      `collate`, a numeric rank standing for String.prototype.localeCompare;
      featured and any unknown mode use a constant key, so nothing moves. */
  function SortKey(mode: string, collate: string -> real): Dish -> real
  {
    if mode == "priceLow" then (d: Dish) => -PriceOrZero(d)
    else if mode == "priceHigh" then (d: Dish) => PriceOrZero(d)
    else if mode == "name" then (d: Dish) => -collate(d.name)
    else (d: Dish) => 0.0
  }

  /** sortItems: a sorted copy; Array.prototype.sort is stable. */
  function SortItems(items: seq<Dish>, mode: string, collate: string -> real): seq<Dish>
  {
    SortDesc(items, SortKey(mode, collate))
  }

  /** applyPipeline */
  function ApplyPipeline(items: seq<Dish>, filter: string, search: string, mode: string, collate: string -> real): seq<Dish>
  {
    SortItems(SearchItems(FilterItems(items, filter), search), mode, collate)
  }

  /** Whether a dish passes both the category filter and the search. */
  predicate Passes(d: Dish, filter: string, search: string)
  {
    (FilterKey(filter) == "all" || InCategory(d, FilterKey(filter)))
    && (search == "" || MatchesSearch(d, search))
  }

  lemma FilterItemsMeans(items: seq<Dish>, filter: string)
    ensures var r := FilterItems(items, filter);
      && IsSubseq(r, items)
      && (FilterKey(filter) == "all" ==> r == items)
      && (forall i :: 0 <= i < |r| ==> FilterKey(filter) == "all" || InCategory(r[i], FilterKey(filter)))
      && (forall i :: 0 <= i < |items| && (FilterKey(filter) == "all" || InCategory(items[i], FilterKey(filter)))
            ==> multiset(r)[items[i]] == multiset(items)[items[i]])
  {
    var key := FilterKey(filter);
    if key == "all" {
      SubseqRefl(items);
    } else {
      FilterIsSubseq(items, (d: Dish) => InCategory(d, key));
    }
  }

  lemma SearchItemsMeans(items: seq<Dish>, search: string)
    ensures var r := SearchItems(items, search);
      && IsSubseq(r, items)
      && (search == "" ==> r == items)
      && (forall i :: 0 <= i < |r| ==> search == "" || MatchesSearch(r[i], search))
      && (forall i :: 0 <= i < |items| && (search == "" || MatchesSearch(items[i], search))
            ==> multiset(r)[items[i]] == multiset(items)[items[i]])
  {
    if search == "" {
      SubseqRefl(items);
    } else {
      FilterIsSubseq(items, (d: Dish) => MatchesSearch(d, search));
    }
  }

  /** The sort is a permutation; priceLow never puts a dearer dish before a
      cheaper one, priceHigh the reverse; dishes the mode cannot tell apart
      keep their order, so featured and unknown modes change nothing. */
  lemma SortItemsMeans(items: seq<Dish>, mode: string, collate: string -> real)
    ensures var r := SortItems(items, mode, collate);
      && multiset(r) == multiset(items)
      && (mode == "priceLow" ==> forall i, j :: 0 <= i < j < |r| ==> PriceOrZero(r[i]) <= PriceOrZero(r[j]))
      && (mode == "priceHigh" ==> forall i, j :: 0 <= i < j < |r| ==> PriceOrZero(r[i]) >= PriceOrZero(r[j]))
      && (mode == "name" ==> forall i, j :: 0 <= i < j < |r| ==> collate(r[i].name) <= collate(r[j].name))
      && (forall k :: WithKey(r, SortKey(mode, collate), k) == WithKey(items, SortKey(mode, collate), k))
      && (mode != "priceLow" && mode != "priceHigh" && mode != "name" ==> r == items)
  {
    var key := SortKey(mode, collate);
    SortDescProps(items, key);
    if mode != "priceLow" && mode != "priceHigh" && mode != "name" {
      SortDescConstant(items, key, 0.0);
    }
  }

  /** Every dish shown passes the filter and the search, and every dish that
      passes both is shown as often as it is on the menu. */
  lemma PipelineMeans(items: seq<Dish>, filter: string, search: string, mode: string, collate: string -> real)
    ensures var r := ApplyPipeline(items, filter, search, mode, collate);
      && (forall i :: 0 <= i < |r| ==> Passes(r[i], filter, search))
      && (forall i :: 0 <= i < |items| && Passes(items[i], filter, search)
            ==> multiset(r)[items[i]] == multiset(items)[items[i]])
      && multiset(r) <= multiset(items)
  {
    var s := SearchItems(FilterItems(items, filter), search);
    var r := SortItems(s, mode, collate);
    FilterSearchMeans(items, filter, search);
    SortItemsMeans(s, mode, collate);
    PartHolds(r, s, (d: Dish) => Passes(d, filter, search));
  }

  /** Filter then search keeps the dishes that pass both, each as often as
      it is on the menu. */
  lemma FilterSearchMeans(items: seq<Dish>, filter: string, search: string)
    ensures var s := SearchItems(FilterItems(items, filter), search);
      && multiset(s) <= multiset(items)
      && (forall i :: 0 <= i < |s| ==> Passes(s[i], filter, search))
      && (forall i :: 0 <= i < |items| && Passes(items[i], filter, search)
            ==> multiset(s)[items[i]] == multiset(items)[items[i]])
  {
    var f := FilterItems(items, filter);
    var s := SearchItems(f, search);
    FilterItemsMeans(items, filter);
    SearchItemsMeans(f, search);
    SubseqMultiset(f, items);
    SubseqMultiset(s, f);
    PipelinePasses(items, f, s, filter, search);
    PipelineKeeps(items, f, s, filter, search);
  }

  lemma PipelinePasses(items: seq<Dish>, f: seq<Dish>, s: seq<Dish>, filter: string, search: string)
    requires multiset(s) <= multiset(f)
    requires forall i :: 0 <= i < |f| ==> FilterKey(filter) == "all" || InCategory(f[i], FilterKey(filter))
    requires forall i :: 0 <= i < |s| ==> search == "" || MatchesSearch(s[i], search)
    ensures forall x :: x in s ==> Passes(x, filter, search)
  {
    forall x | x in s ensures Passes(x, filter, search) {
      assert x in multiset(f);
      assert x in f;
    }
  }

  lemma PipelineKeeps(items: seq<Dish>, f: seq<Dish>, s: seq<Dish>, filter: string, search: string)
    requires forall i :: 0 <= i < |items| && (FilterKey(filter) == "all" || InCategory(items[i], FilterKey(filter)))
               ==> multiset(f)[items[i]] == multiset(items)[items[i]]
    requires forall i :: 0 <= i < |f| && (search == "" || MatchesSearch(f[i], search))
               ==> multiset(s)[f[i]] == multiset(f)[f[i]]
    ensures forall i :: 0 <= i < |items| && Passes(items[i], filter, search)
              ==> multiset(s)[items[i]] == multiset(items)[items[i]]
  {
    forall i | 0 <= i < |items| && Passes(items[i], filter, search)
      ensures multiset(s)[items[i]] == multiset(items)[items[i]]
    {
      var x := items[i];
      assert x in multiset(f);
      var k :| 0 <= k < |f| && f[k] == x;
    }
  }

  /** The address a dish's picture is meant to have: the menu's own path,
      else the image named after the dish's id. */
  function PictureAddress(d: Dish): (r: string)
    ensures r != ""
  {
    if d.img != "" then d.img else "/images/" + d.id + ".jpeg"
  }

  /** pictureURL of the menu page with suggestions: the menu's own path as
      given, else the image named after the escaped id. */
  function PictureURL(d: Dish): (r: string)
    ensures d.img != "" ==> r == PictureAddress(d)
    ensures d.img == "" ==> r == SafeTxt(PictureAddress(d))
  {
    ImagesPathEscaped(d.id);
    if d.img != "" then d.img else "/images/" + SafeTxt(d.id) + ".jpeg"
  }

  /** pictureURL of the plain menu page: the menu's path is escaped too. */
  function PictureURLEscaped(d: Dish): (r: string)
    ensures r == SafeTxt(PictureAddress(d))
  {
    ImagesPathEscaped(d.id);
    if d.img != "" then SafeTxt(d.img) else "/images/" + SafeTxt(d.id) + ".jpeg"
  }

  predicate AttributeSafe(s: string)
  {
    forall i :: 0 <= i < |s| ==> s[i] != '<' && s[i] != '>' && s[i] != '"' && s[i] != '\''
  }

  /** The fixed parts of the fallback address hold none of the escaped
      characters, so escaping the address escapes only the id. */
  lemma ImagesPathEscaped(id: string)
    ensures SafeTxt("/images/" + id + ".jpeg") == "/images/" + SafeTxt(id) + ".jpeg"
  {
    var pre, suf := "/images/", ".jpeg";
    SafeTxtAppend(pre + id, suf);
    SafeTxtAppend(pre, id);
    ImagesPathPlain(pre, suf);
  }

  lemma ImagesPathPlain(pre: string, suf: string)
    requires pre == "/images/" && suf == ".jpeg"
    ensures SafeTxt(pre) == pre && SafeTxt(suf) == suf
  {
    SafeTxtPlain(pre);
    SafeTxtPlain(suf);
  }

  /** The text the menu page with suggestions writes between the quotes of
      its `srcset` and `src` attributes: pictureURL escaped once more. */
  function PictureSrc(d: Dish): (r: string)
    ensures AttributeSafe(r)
    ensures Unescape(r) == PictureURL(d)
  {
    UnescapeSafeTxt(PictureURL(d));
    SafeTxt(PictureURL(d))
  }

  /** What the browser reads back from that attribute is the intended address
      when the menu gives a path, and, when it does not, exactly when the id
      holds none of the five escaped characters: otherwise the id reaches the
      address still escaped (`a&b` asks for `/images/a&amp;b.jpeg`). */
  lemma PictureSrcAsWritten(d: Dish)
    ensures d.img != "" ==> Unescape(PictureSrc(d)) == PictureAddress(d)
    ensures d.img == "" ==>
      (Unescape(PictureSrc(d)) == PictureAddress(d) <==> forall i :: 0 <= i < |d.id| ==> !IsSpecial(d.id[i]))
  {
    if d.img == "" {
      var u := "/images/" + SafeTxt(d.id) + ".jpeg";
      var a := "/images/" + d.id + ".jpeg";
      if u == a {
        assert SafeTxt(d.id) == u[8..|u| - 5] == a[8..|a| - 5] == d.id;
      }
      SafeTxtUnchanged(d.id);
    }
  }

  /** The id `a&b` with no path in the menu: the browser asks for
      `/images/a&amp;b.jpeg` instead of `/images/a&b.jpeg`. */
  lemma PictureSrcAmpersand()
    ensures Unescape(PictureSrc(Dish("a&b", "", "", "", None, true, [], ""))) != "/images/a&b.jpeg"
  {
    var x := Dish("a&b", "", "", "", None, true, [], "");
    assert IsSpecial(x.id[1]);
    PictureSrcAsWritten(x);
  }

  /** The text escaped once, as the attribute needs: what the plain menu page
      writes, and what the browser reads back is the intended address. */
  function PictureSrcOnce(d: Dish): (r: string)
    ensures AttributeSafe(r)
    ensures Unescape(r) == PictureAddress(d)
    ensures r == PictureURLEscaped(d)
  {
    UnescapeSafeTxt(PictureAddress(d));
    SafeTxt(PictureAddress(d))
  }
}
