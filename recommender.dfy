/** The storefront's light personalisation: it counts the dishes added in
    this session and, per added dish, how often each other dish was in the
    cart at that moment, and ranks menu dishes by time of day, those counts
    and a preference for mid-priced dishes. */
module Recommendations {
  import opened Seqs
  import opened Catalog
  import opened EventBus

  /** The meal of an hour of the day. */
  function TimeTag(hour: int): (r: string)
    ensures hour < 11 <==> r == "breakfast"
    ensures 11 <= hour < 16 <==> r == "lunch"
    ensures 16 <= hour <==> r == "dinner"
  {
    if hour < 11 then "breakfast" else if hour < 16 then "lunch" else "dinner"
  }

  /** explain(): the caption under the suggestions. */
  function Explain(hour: int): (r: string)
    ensures r == "Popular at " + TimeTag(hour)
  {
    if hour < 11 then "Popular at breakfast"
    else if hour < 16 then "Popular at lunch"
    else "Popular at dinner"
  }

  /** Co-occurrence counts: co[x][y] is how often y was in the cart when x was added. */
  type CoMap = map<string, map<string, nat>>

  function Row(co: CoMap, x: string): map<string, nat>
  {
    if x in co then co[x] else map[]
  }

  /** `co[x]?.[y] || 0` */
  function Count(co: CoMap, x: string, y: string): nat
  {
    if y in Row(co, x) then Row(co, x)[y] else 0
  }

  function Adds(adds: map<string, nat>, x: string): nat
  {
    if x in adds then adds[x] else 0
  }

  /** trackAdd's count of adds: one more for x. */
  function Tracked(adds: map<string, nat>, x: string): map<string, nat>
  {
    adds[x := Adds(adds, x) + 1]
  }

  /** The counts after trackAdd(x) with a cart holding `ids`: one more for every
      cart line other than x, the row of x being created at the first one. */
  function CoAfter(co: CoMap, x: string, ids: seq<string>): CoMap
  {
    if ids == [] then co
    else
      var before := CoAfter(co, x, ids[..|ids| - 1]);
      var y := ids[|ids| - 1];
      if y == x then before
      else before[x := Row(before, x)[y := Count(before, x, y) + 1]]
  }

  /** trackAdd(x) counts, for every other dish y, the cart lines holding y;
      no other row changes and x never counts itself. */
  lemma {:induction false} CoAfterCounts(co: CoMap, x: string, ids: seq<string>, z: string, y: string)
    ensures Count(CoAfter(co, x, ids), z, y)
            == Count(co, z, y) + (if z == x && y != x then multiset(ids)[y] else 0)
  {
    if ids != [] {
      var init := ids[..|ids| - 1];
      CoAfterCounts(co, x, init, z, y);
      assert ids == init + [ids[|ids| - 1]];
    }
  }

  /** The row of x exists afterwards exactly when it existed before or the
      cart held another dish; other rows are the same entries as before. */
  lemma {:induction false} CoAfterRows(co: CoMap, x: string, ids: seq<string>)
    ensures x in CoAfter(co, x, ids) <==> x in co || exists i :: 0 <= i < |ids| && ids[i] != x
    ensures forall z :: z != x ==> (z in CoAfter(co, x, ids) <==> z in co)
    ensures forall z :: z != x && z in co ==> CoAfter(co, x, ids)[z] == co[z]
  {
    if ids != [] {
      var init := ids[..|ids| - 1];
      CoAfterRows(co, x, init);
      assert forall i :: 0 <= i < |init| ==> init[i] == ids[i];
      if exists i :: 0 <= i < |ids| && ids[i] != x {
        var i :| 0 <= i < |ids| && ids[i] != x;
        if i < |init| {
          assert init[i] != x;
        }
      }
    }
  }

  function Abs(x: real): real
  {
    if x < 0.0 then -x else x
  }

  /** The price preference: 1 at 200, falling linearly to 0 at 300 away;
      nothing for a price that is not a number. */
  function PriceNorm(price: Option<real>): (r: real)
    ensures 0.0 <= r <= 1.0
    ensures price.Some? && price.value == 200.0 ==> r == 1.0
    ensures price.None? || Abs(price.value - 200.0) >= 300.0 ==> r == 0.0
  {
    if price.None? then 0.0
    else MaxR(0.0, MinR(1.0, 1.0 - Abs(price.value - 200.0) / 300.0))
  }

  /** `coMap[c.id]?.[item] || 0` summed over the cart lines. */
  function CoSum(co: CoMap, cartIds: seq<string>, item: string): nat
  {
    if cartIds == [] then 0
    else CoSum(co, cartIds[..|cartIds| - 1], item) + Count(co, cartIds[|cartIds| - 1], item)
  }

  /** The score of one dish: 5 for the meal tag, 2 per add this session, the
      co-occurrence with the cart, and the price preference. */
  function ItemScore(d: Dish, hour: int, adds: map<string, nat>, co: CoMap, cartIds: seq<string>): (s: real)
    ensures s >= 0.0
    ensures TimeTag(hour) in d.tags ==> s >= 5.0
    ensures s >= 2.0 * Adds(adds, d.id) as real + CoSum(co, cartIds, d.id) as real
  {
    (if TimeTag(hour) in d.tags then 5.0 else 0.0)
    + 2.0 * Adds(adds, d.id) as real
    + CoSum(co, cartIds, d.id) as real
    + PriceNorm(d.price)
  }

  /** The scores dictionary after the dishes of `items` were scored in order:
      a dish without id or with an excluded id is skipped, and a positive
      score is stored under the dish's id, a later dish overwriting. */
  function Scores(items: seq<Dish>, hour: int, exclude: seq<string>, adds: map<string, nat>, co: CoMap, cartIds: seq<string>): map<string, real>
  {
    if items == [] then map[]
    else
      var before := Scores(items[..|items| - 1], hour, exclude, adds, co, cartIds);
      var d := items[|items| - 1];
      if d.id == "" || d.id in exclude then before
      else
        var s := ItemScore(d, hour, adds, co, cartIds);
        if s > 0.0 then before[d.id := s] else before
  }

  /** Every stored score is positive and belongs to a non-excluded id; every
      dish with an id that is not excluded and a positive score is stored. */
  lemma {:induction false} ScoresMeans(items: seq<Dish>, hour: int, exclude: seq<string>, adds: map<string, nat>, co: CoMap, cartIds: seq<string>)
    ensures var m := Scores(items, hour, exclude, adds, co, cartIds);
      && (forall id :: id in m ==> id != "" && id !in exclude && m[id] > 0.0)
      && (forall i :: (0 <= i < |items| && items[i].id != "" && items[i].id !in exclude
                         && ItemScore(items[i], hour, adds, co, cartIds) > 0.0) ==> items[i].id in m)
  {
    if items != [] {
      var init := items[..|items| - 1];
      ScoresMeans(init, hour, exclude, adds, co, cartIds);
      assert forall i :: 0 <= i < |init| ==> init[i] == items[i];
    }
  }

  /** The stored score of a dish, 0 when none is stored. */
  function ScoreOf(scores: map<string, real>, d: Dish): real
  {
    if d.id in scores then scores[d.id] else 0.0
  }

  predicate Scored(scores: map<string, real>, d: Dish)
  {
    d.id in scores && scores[d.id] > 0.0
  }

  /** slice(0, n): the first n elements, or all of them when there are
      fewer; a negative n counts back from the end. */
  function Take<T>(s: seq<T>, n: int): (r: seq<T>)
    ensures |r| <= |s| && r == s[..|r|]
    ensures n >= 0 ==> |r| == (if n < |s| then n else |s|)
    ensures n < 0 ==> |r| == (if -n < |s| then |s| + n else 0)
  {
    if n >= |s| then s
    else if n >= 0 then s[..n]
    else if -n < |s| then s[..|s| + n]
    else []
  }

  /** The dishes of the menu with a positive stored score, in menu order. */
  function ScoredDishes(items: seq<Dish>, scores: map<string, real>): seq<Dish>
  {
    Filter(items, (d: Dish) => Scored(scores, d))
  }

  /** The sort key of the ranking. */
  function ByScore(scores: map<string, real>): Dish -> real
  {
    (d: Dish) => ScoreOf(scores, d)
  }

  /** The ranking: dishes with a positive stored score, highest first (ties in
      menu order), cut to at least one and at most `limit`. */
  function Ranked(items: seq<Dish>, scores: map<string, real>, limit: int): seq<Dish>
  {
    var n := if limit < 1 then 1 else limit;
    Take(SortDesc(ScoredDishes(items, scores), ByScore(scores)), n)
  }

  /** Nothing that `r` leaves out of `s` (or keeps fewer copies of) has a
      larger key than an element kept. */
  ghost predicate KeepsBest<T(!new)>(r: seq<T>, s: seq<T>, key: T -> real)
  {
    forall x :: multiset(r)[x] < multiset(s)[x] ==> forall i :: 0 <= i < |r| ==> key(r[i]) >= key(x)
  }

  /** Elements with equal keys come in `r` as a prefix of their order in `s`. */
  ghost predicate TiesInOrder<T>(r: seq<T>, s: seq<T>, key: T -> real)
  {
    forall k :: WithKey(r, key, k) <= WithKey(s, key, k)
  }

  /** The ranking holds the max(1, limit) best-scoring dishes of the menu, or
      every scored dish when there are fewer: best first, no scored dish left
      out scores above one kept, and dishes with equal scores come in menu
      order. */
  lemma RankedMeans(items: seq<Dish>, scores: map<string, real>, limit: int)
    ensures var r := Ranked(items, scores, limit);
      var f := ScoredDishes(items, scores);
      var n := if limit < 1 then 1 else limit;
      && |r| == (if n < |f| then n else |f|)
      && multiset(r) <= multiset(items)
      && (forall i :: 0 <= i < |r| ==> Scored(scores, r[i]))
      && (forall i, j :: 0 <= i < j < |r| ==> ScoreOf(scores, r[i]) >= ScoreOf(scores, r[j]))
      && KeepsBest(r, f, ByScore(scores))
      && TiesInOrder(r, f, ByScore(scores))
  {
    var f := ScoredDishes(items, scores);
    var r := Ranked(items, scores, limit);
    TopOfSorted(f, ByScore(scores), if limit < 1 then 1 else limit);
    PartHolds(r, f, (d: Dish) => Scored(scores, d));
  }

  /** A scored dish of the menu that the ranking leaves out, or keeps fewer
      copies of than the menu has, scores no higher than any dish kept. */
  lemma RankedLeavesNoBetter(items: seq<Dish>, scores: map<string, real>, limit: int, d: Dish)
    requires d in items && Scored(scores, d)
    requires multiset(Ranked(items, scores, limit))[d] < multiset(items)[d]
    ensures var r := Ranked(items, scores, limit);
      forall i :: 0 <= i < |r| ==> ScoreOf(scores, r[i]) >= ScoreOf(scores, d)
  {
    var f := ScoredDishes(items, scores);
    var r := Ranked(items, scores, limit);
    RankedMeans(items, scores, limit);
    var m :| 0 <= m < |items| && items[m] == d;
    assert multiset(f)[items[m]] == multiset(items)[items[m]];
    assert multiset(r)[d] < multiset(f)[d];
    assert forall i :: 0 <= i < |r| ==> ByScore(scores)(r[i]) >= ByScore(scores)(d);
  }

  /** The first n of a list sorted by descending key: exactly min(n, |s|)
      elements of the list in descending key order, none of the rest with a
      larger key than any kept, and equal keys in the list's order. */
  lemma TopOfSorted<T(!new)>(s: seq<T>, key: T -> real, n: int)
    requires n >= 0
    ensures var r := Take(SortDesc(s, key), n);
      && |r| == (if n < |s| then n else |s|)
      && multiset(r) <= multiset(s)
      && SortedDesc(r, key)
      && KeepsBest(r, s, key)
      && TiesInOrder(r, s, key)
  {
    var sorted := SortDesc(s, key);
    var r := Take(sorted, n);
    var rest := sorted[|r|..];
    SortDescProps(s, key);
    assert sorted == r + rest;
    SortedFront(r, rest, key);
    SplitKeepsBest(s, r, rest, key);
    SplitTiesInOrder(s, r, rest, key);
  }

  /** The front part of a list sorted by descending key is sorted too. */
  lemma SortedFront<T>(r: seq<T>, rest: seq<T>, key: T -> real)
    requires SortedDesc(r + rest, key)
    ensures SortedDesc(r, key)
  {
    forall i, j | 0 <= i < j < |r| ensures key(r[i]) >= key(r[j]) {
      assert r[i] == (r + rest)[i] && r[j] == (r + rest)[j];
    }
  }

  /** The front part of a descending sort of `s` keeps the best of `s`. */
  lemma SplitKeepsBest<T(!new)>(s: seq<T>, r: seq<T>, rest: seq<T>, key: T -> real)
    requires SortedDesc(r + rest, key) && multiset(r + rest) == multiset(s)
    ensures multiset(r) <= multiset(s)
    ensures KeepsBest(r, s, key)
  {
    assert multiset(r + rest) == multiset(r) + multiset(rest);
    SortedSplit(r + rest, r, rest, key);
    forall x | multiset(r)[x] < multiset(s)[x]
      ensures forall i :: 0 <= i < |r| ==> key(r[i]) >= key(x)
    {
      assert x in multiset(rest);
    }
  }

  /** The front part of a stable sort of `s` lists equal keys in the order of `s`. */
  lemma SplitTiesInOrder<T>(s: seq<T>, r: seq<T>, rest: seq<T>, key: T -> real)
    requires forall k :: WithKey(r + rest, key, k) == WithKey(s, key, k)
    ensures TiesInOrder(r, s, key)
  {
    forall k ensures WithKey(r, key, k) <= WithKey(s, key, k) {
      WithKeyAppend(r, rest, key, k);
    }
  }

  /** Cutting a list sorted by descending key: nothing after the cut has a
      larger key than anything before it. */
  lemma SortedSplit<T>(sorted: seq<T>, r: seq<T>, rest: seq<T>, key: T -> real)
    requires SortedDesc(sorted, key) && sorted == r + rest
    ensures forall x :: x in rest ==> forall i :: 0 <= i < |r| ==> key(r[i]) >= key(x)
  {
    forall x, i | x in rest && 0 <= i < |r| ensures key(r[i]) >= key(x) {
      var j :| 0 <= j < |rest| && rest[j] == x;
      assert sorted[|r| + j] == x && sorted[i] == r[i];
    }
  }

  /** What suggest returns: the max(1, limit) best-scoring dishes of the menu
      (all scored dishes when there are fewer), never a cart dish or an
      excluded one, best first, equal scores in menu order. */
  lemma SuggestionsMeans(items: seq<Dish>, hour: int, limit: int, excludeIds: seq<string>, adds: map<string, nat>, co: CoMap, cartIds: seq<string>)
    ensures var scores := Scores(items, hour, excludeIds + cartIds, adds, co, cartIds);
      var r := Ranked(items, scores, limit);
      var f := ScoredDishes(items, scores);
      var n := if limit < 1 then 1 else limit;
      && |r| == (if n < |f| then n else |f|)
      && multiset(r) <= multiset(items)
      && (forall i :: 0 <= i < |r| ==> r[i].id != "" && r[i].id !in excludeIds && r[i].id !in cartIds)
      && (forall i :: 0 <= i < |r| ==> ScoreOf(scores, r[i]) > 0.0)
      && (forall i, j :: 0 <= i < j < |r| ==> ScoreOf(scores, r[i]) >= ScoreOf(scores, r[j]))
      && KeepsBest(r, f, ByScore(scores))
      && TiesInOrder(r, f, ByScore(scores))
  {
    var exclude := excludeIds + cartIds;
    var scores := Scores(items, hour, exclude, adds, co, cartIds);
    var r := Ranked(items, scores, limit);
    ScoresMeans(items, hour, exclude, adds, co, cartIds);
    RankedMeans(items, scores, limit);
    RankedIds(scores, exclude, r);
    forall i | 0 <= i < |r| ensures r[i].id !in excludeIds && r[i].id !in cartIds {
      assert r[i].id !in exclude;
    }
  }

  /** Dishes with a stored score have an id that is not excluded and a
      positive score. */
  lemma RankedIds(scores: map<string, real>, exclude: seq<string>, r: seq<Dish>)
    requires forall id :: id in scores ==> id != "" && id !in exclude && scores[id] > 0.0
    requires forall i :: 0 <= i < |r| ==> Scored(scores, r[i])
    ensures forall i :: 0 <= i < |r| ==> r[i].id != "" && r[i].id !in exclude && ScoreOf(scores, r[i]) > 0.0
  {
  }

  class Recommender {
    /** sessionAdds: the adds of each dish in this session. */
    var sessionAdds: map<string, nat>
    /** The stored co-occurrence counts. */
    var co: CoMap
    /** The bus suggest announces its result on. */
    const bus: Bus

    constructor (bus: Bus, stored: CoMap)
      ensures sessionAdds == map[] && co == stored && this.bus == bus
    {
      sessionAdds := map[];
      co := stored;
      this.bus := bus;
    }

    /** trackAdd(itemId) with the ids of the cart lines at that moment. */
    method TrackAdd(itemId: string, cartIds: seq<string>)
      modifies this`sessionAdds, this`co
      ensures sessionAdds == Tracked(old(sessionAdds), itemId)
      ensures co == CoAfter(old(co), itemId, cartIds)
    {
      sessionAdds := Tracked(sessionAdds, itemId);
      var i := 0;
      while i < |cartIds|
        invariant 0 <= i <= |cartIds|
        invariant co == CoAfter(old(co), itemId, cartIds[..i])
        invariant sessionAdds == Tracked(old(sessionAdds), itemId)
      {
        assert cartIds[..i + 1][..i] == cartIds[..i];
        var y := cartIds[i];
        if y != itemId {
          var row := Row(co, itemId);
          co := co[itemId := row[y := Count(co, itemId, y) + 1]];
        }
        i := i + 1;
      }
      assert cartIds[..i] == cartIds;
    }

    /** The scoring pass of suggest: the dishes scored one by one. */
    method ScoreMenu(items: seq<Dish>, hour: int, exclude: seq<string>, cartIds: seq<string>)
      returns (scores: map<string, real>)
      ensures scores == Scores(items, hour, exclude, sessionAdds, co, cartIds)
    {
      scores := map[];
      var i := 0;
      while i < |items|
        invariant 0 <= i <= |items|
        invariant scores == Scores(items[..i], hour, exclude, sessionAdds, co, cartIds)
      {
        assert items[..i + 1][..i] == items[..i];
        var d := items[i];
        if d.id != "" && d.id !in exclude {
          var s := ItemScore(d, hour, sessionAdds, co, cartIds);
          if s > 0.0 {
            scores := scores[d.id := s];
          }
        }
        i := i + 1;
      }
      assert items[..i] == items;
    }

    /** suggest(menu, {limit, excludeIds}) with the cart's ids and the hour: an
        empty menu gives nothing and announces nothing; otherwise the ranking
        is announced as "ai:suggest" and returned. */
    method Suggest(items: seq<Dish>, hour: int, limit: int, excludeIds: seq<string>, cartIds: seq<string>)
      returns (ranked: seq<Dish>)
      modifies bus`events
      ensures items == [] ==> ranked == [] && bus.events == old(bus.events)
      ensures items != [] ==>
        ranked == Ranked(items, Scores(items, hour, excludeIds + cartIds, sessionAdds, co, cartIds), limit)
        && bus.events == AfterEmit(old(bus.events), "ai:suggest")
    {
      if items == [] {
        return [];
      }
      var scores := ScoreMenu(items, hour, excludeIds + cartIds, cartIds);
      ranked := Ranked(items, scores, limit);
      var _ := bus.Emit("ai:suggest");
    }
  }
}
