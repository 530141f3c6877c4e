/** The storefront cart. Every change goes through `save`, which cleans each
    line (price at least 0, quantity between 1 and 99), stores the cart and
    announces "cart:updated" on the event bus; adding a dish also tells the
    recommender about it. */
module ShopCart {
  import opened Seqs
  import opened Text
  import opened EventBus
  import opened Recommendations

  datatype Line = Line(id: string, name: string, price: real, qty: int)

  /** A line as `items()` reports it. */
  datatype ItemView = ItemView(id: string, name: string, qty: int, price: real, lineTotal: real)

  const MAX_QTY: int := 99

  /** The line save keeps: price `Math.max(0, price)`, quantity clamped to
      1..99, and only id, name, price and quantity. */
  function CleanLine(l: Line): (r: Line)
    ensures r.id == l.id && r.name == l.name
    ensures r.price >= 0.0 && 1 <= r.qty <= MAX_QTY
    ensures l.price >= 0.0 ==> r.price == l.price
    ensures 1 <= l.qty <= MAX_QTY ==> r.qty == l.qty
  {
    Line(l.id, l.name, MaxR(0.0, l.price), Clamp(l.qty, 1, MAX_QTY))
  }

  predicate IsClean(l: Line)
  {
    l.price >= 0.0 && 1 <= l.qty <= MAX_QTY
  }

  function Cleaned(lines: seq<Line>): (r: seq<Line>)
    ensures |r| == |lines|
    ensures forall i :: 0 <= i < |r| ==> r[i] == CleanLine(lines[i]) && IsClean(r[i])
  {
    seq(|lines|, i requires 0 <= i < |lines| => CleanLine(lines[i]))
  }

  /** Cleaning a clean cart changes nothing, so saving twice is saving once. */
  lemma CleanedIdempotent(lines: seq<Line>)
    ensures Cleaned(Cleaned(lines)) == Cleaned(lines)
    ensures (forall i :: 0 <= i < |lines| ==> IsClean(lines[i])) ==> Cleaned(lines) == lines
  {
  }

  function Ids(lines: seq<Line>): (r: seq<string>)
    ensures |r| == |lines|
    ensures forall i :: 0 <= i < |r| ==> r[i] == lines[i].id
  {
    seq(|lines|, i requires 0 <= i < |lines| => lines[i].id)
  }

  predicate UniqueIds(lines: seq<Line>)
  {
    forall i, j :: 0 <= i < j < |lines| ==> lines[i].id != lines[j].id
  }

  /** The cart addItem hands to save when its guards pass: the first line with
      the id gets `min(99, qty + add)`, otherwise a new line goes at the end. */
  function Added(lines: seq<Line>, id: string, name: string, price: real, qty: int): seq<Line>
  {
    var add := Clamp(qty, 1, MAX_QTY);
    match FindIndex(lines, (l: Line) => l.id == id)
    case Some(i) => lines[i := lines[i].(qty := if lines[i].qty + add < MAX_QTY then lines[i].qty + add else MAX_QTY)]
    case None => lines + [Line(id, name, price, add)]
  }

  /** A dish already in the cart gets more of it and nothing else changes;
      a new dish is appended; so distinct ids stay distinct. */
  lemma AddedMeans(lines: seq<Line>, id: string, name: string, price: real, qty: int)
    requires UniqueIds(lines)
    ensures var r := Added(lines, id, name, price, qty);
      var add := Clamp(qty, 1, MAX_QTY);
      && UniqueIds(r)
      && ((exists i :: 0 <= i < |lines| && lines[i].id == id) ==>
            |r| == |lines|
            && forall i :: 0 <= i < |lines| ==>
                 if lines[i].id == id then r[i] == lines[i].(qty := if lines[i].qty + add < MAX_QTY then lines[i].qty + add else MAX_QTY)
                 else r[i] == lines[i])
      && ((forall i :: 0 <= i < |lines| ==> lines[i].id != id) ==>
            r == lines + [Line(id, name, price, add)])
  {
    var r := Added(lines, id, name, price, qty);
    var idx := FindIndex(lines, (l: Line) => l.id == id);
    if idx.None? {
      forall i, j | 0 <= i < j < |r| ensures r[i].id != r[j].id {
        if j == |lines| {
          assert lines[i].id != id;
        }
      }
    }
  }

  /** Cleaning keeps the ids, so it keeps them distinct. */
  lemma CleanedKeepsIds(lines: seq<Line>)
    ensures Ids(Cleaned(lines)) == Ids(lines)
    ensures UniqueIds(lines) ==> UniqueIds(Cleaned(lines))
  {
  }

  predicate Keeps(id: string, l: Line)
  {
    l.id != id
  }

  /** The cart removeItem hands to save. */
  function Removed(lines: seq<Line>, id: string): seq<Line>
  {
    Filter(lines, (l: Line) => Keeps(id, l))
  }

  /** Every line with the id goes, every other line stays, in order. */
  lemma RemovedMeans(lines: seq<Line>, id: string)
    ensures var r := Removed(lines, id);
      && IsSubseq(r, lines)
      && (forall i :: 0 <= i < |r| ==> r[i].id != id)
      && (forall i :: 0 <= i < |lines| && lines[i].id != id ==> multiset(r)[lines[i]] == multiset(lines)[lines[i]])
      && (UniqueIds(lines) ==> UniqueIds(r))
  {
    var p := (l: Line) => Keeps(id, l);
    FilterIsSubseq(lines, p);
    if UniqueIds(lines) {
      SubseqUnique(Removed(lines, id), lines);
    }
  }

  /** A subsequence of a cart with distinct ids has distinct ids. */
  lemma {:induction false} SubseqUnique(r: seq<Line>, s: seq<Line>)
    requires IsSubseq(r, s) && UniqueIds(s)
    ensures UniqueIds(r)
  {
    if r != [] && s != [] {
      assert UniqueIds(s[1..]) by {
        forall i, j | 0 <= i < j < |s[1..]| ensures s[1..][i].id != s[1..][j].id {
          assert s[1..][i] == s[i + 1] && s[1..][j] == s[j + 1];
        }
      }
      if r[0] == s[0] {
        SubseqUnique(r[1..], s[1..]);
        SubseqMembers(r[1..], s[1..]);
        forall i, j | 0 <= i < j < |r| ensures r[i].id != r[j].id {
          if i == 0 {
            assert r[j] == r[1..][j - 1];
            assert r[j] in s[1..];
            var k :| 0 <= k < |s[1..]| && s[1..][k] == r[j];
            assert s[k + 1] == r[j];
          } else {
            assert r[i] == r[1..][i - 1] && r[j] == r[1..][j - 1];
          }
        }
      } else {
        SubseqUnique(r, s[1..]);
      }
    }
  }

  /** The cart updateQty hands to save for a quantity from 1 to 99. */
  function WithQty(lines: seq<Line>, id: string, n: int): (r: seq<Line>)
    ensures |r| == |lines|
    ensures forall i :: 0 <= i < |r| ==> r[i] == if lines[i].id == id then lines[i].(qty := n) else lines[i]
  {
    seq(|lines|, i requires 0 <= i < |lines| => if lines[i].id == id then lines[i].(qty := n) else lines[i])
  }

  /** Σ price·qty */
  function Total(lines: seq<Line>): real
  {
    if lines == [] then 0.0 else Total(lines[..|lines| - 1]) + lines[|lines| - 1].price * lines[|lines| - 1].qty as real
  }

  function Items(lines: seq<Line>): (r: seq<ItemView>)
    ensures |r| == |lines|
    ensures forall i :: 0 <= i < |r| ==>
      r[i] == ItemView(lines[i].id, lines[i].name, lines[i].qty, lines[i].price, lines[i].price * lines[i].qty as real)
  {
    seq(|lines|, i requires 0 <= i < |lines| =>
      ItemView(lines[i].id, lines[i].name, lines[i].qty, lines[i].price, lines[i].price * lines[i].qty as real))
  }

  function SumLineTotals(views: seq<ItemView>): real
  {
    if views == [] then 0.0 else SumLineTotals(views[..|views| - 1]) + views[|views| - 1].lineTotal
  }

  /** The total is the sum of the line totals items() reports. */
  lemma {:induction false} TotalIsSumOfItems(lines: seq<Line>)
    ensures Total(lines) == SumLineTotals(Items(lines))
  {
    if lines != [] {
      var init := lines[..|lines| - 1];
      TotalIsSumOfItems(init);
      var v := Items(lines);
      assert |v[..|lines| - 1]| == |Items(init)|;
      assert forall i :: 0 <= i < |init| ==> v[..|lines| - 1][i] == v[i] == Items(init)[i];
      assert v[..|lines| - 1] == Items(init);
    }
  }

  /** A clean cart never has a negative total, and appending a line adds its
      price times its quantity. */
  lemma {:induction false} TotalFacts(lines: seq<Line>, l: Line)
    requires forall i :: 0 <= i < |lines| ==> IsClean(lines[i])
    ensures Total(lines) >= 0.0
    ensures Total(lines + [l]) == Total(lines) + l.price * l.qty as real
  {
    assert (lines + [l])[..|lines|] == lines;
    if lines != [] {
      TotalFacts(lines[..|lines| - 1], lines[|lines| - 1]);
      assert lines[..|lines| - 1] + [lines[|lines| - 1]] == lines;
    }
  }

  class Cart {
    /** The cart as Cart.get() returns it; the stored copy is kept equal. */
    var lines: seq<Line>
    const bus: Bus
    const ai: Recommender

    /** Every line of a saved cart is clean. The cart read from storage at
        start-up is taken as stored and need not be; every write makes it so. */
    predicate Valid()
      reads this
    {
      forall i :: 0 <= i < |lines| ==> IsClean(lines[i])
    }

    /** The cart read back from storage, as stored. */
    constructor (stored: seq<Line>, bus: Bus, ai: Recommender)
      ensures lines == stored && this.bus == bus && this.ai == ai
    {
      lines := stored;
      this.bus := bus;
      this.ai := ai;
    }

    /** save(cart) */
    method Save(cart: seq<Line>)
      modifies this`lines, bus`events
      ensures lines == Cleaned(cart) && Valid()
      ensures bus.events == AfterEmit(old(bus.events), "cart:updated")
    {
      lines := Cleaned(cart);
      var _ := bus.Emit("cart:updated");
    }

    /** clear() */
    method Clear()
      modifies this`lines, bus`events
      ensures lines == [] && Valid()
      ensures bus.events == AfterEmit(old(bus.events), "cart:updated")
    {
      Save([]);
    }

    /** addItem({id, name, price}, qty): nothing for a missing id, a blank name
        or a price that is not a finite number (None); otherwise the merged
        cart is saved and the recommender counts the add against the saved
        cart. */
    method AddItem(id: string, name: string, price: Option<real>, qty: int)
      modifies this`lines, bus`events, ai`sessionAdds, ai`co
      ensures id == "" || !IsNonEmpty(name) || price.None? ==>
        lines == old(lines) && bus.events == old(bus.events)
        && ai.sessionAdds == old(ai.sessionAdds) && ai.co == old(ai.co)
      ensures id != "" && IsNonEmpty(name) && price.Some? ==>
        && lines == Cleaned(Added(old(lines), id, name, price.value, qty))
        && Valid()
        && bus.events == AfterEmit(old(bus.events), "cart:updated")
        && ai.sessionAdds == Tracked(old(ai.sessionAdds), id)
        && ai.co == CoAfter(old(ai.co), id, Ids(lines))
    {
      if id == "" || !IsNonEmpty(name) || price.None? {
        return;
      }
      Save(Added(lines, id, name, price.value, qty));
      ai.TrackAdd(id, Ids(lines));
    }

    /** removeItem(id) */
    method RemoveItem(id: string)
      modifies this`lines, bus`events
      ensures lines == Cleaned(Removed(old(lines), id)) && Valid()
      ensures bus.events == AfterEmit(old(bus.events), "cart:updated")
    {
      Save(Removed(lines, id));
    }

    /** updateQty(id, qty): the quantity is clamped to 0..99 and 0 removes the
        line. */
    method UpdateQty(id: string, qty: int)
      modifies this`lines, bus`events
      ensures Clamp(qty, 0, MAX_QTY) == 0 ==> lines == Cleaned(Removed(old(lines), id))
      ensures Clamp(qty, 0, MAX_QTY) > 0 ==> lines == Cleaned(WithQty(old(lines), id, Clamp(qty, 0, MAX_QTY)))
      ensures Valid()
      ensures bus.events == AfterEmit(old(bus.events), "cart:updated")
    {
      var n := Clamp(qty, 0, MAX_QTY);
      if n == 0 {
        RemoveItem(id);
        return;
      }
      Save(WithQty(lines, id, n));
    }
  }
}
