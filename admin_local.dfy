/** The local admin page that previews orders from a static file: the status
    changes only in memory, the search looks at one space-joined string of
    id, name, phone and address, and the only sort mode is Newest. */
module AdminLocal {
  import opened Seqs
  import opened Text
  import opened Orders
  import opened OrderStatus

  /** The text the search looks in: id, name, phone and address joined by
      single spaces, lower-cased. Item names are not part of it. */
  function Haystack(o: Order): string
  {
    Lower(Join([o.id, o.customer.name, o.customer.phone, o.customer.address], " "))
  }

  /** The status filter (ALL passes everything), then the search when the
      query is not empty. */
  predicate Keep(o: Order, filter: string, query: string)
  {
    (filter == "ALL" || o.status == filter)
    && (query == "" || Contains(Haystack(o), Lower(query)))
  }

  function Filtered(orders: seq<Order>, filter: string, query: string): seq<Order>
  {
    Filter(orders, (o: Order) => Keep(o, filter, query))
  }

  /** Newest first by creation time; any other mode keeps the loaded order. */
  function Arrange(list: seq<Order>, mode: string): seq<Order>
  {
    if mode == "Newest" then SortDesc(list, Created) else list
  }

  function View(orders: seq<Order>, filter: string, query: string, mode: string): seq<Order>
  {
    Arrange(Filtered(orders, filter, query), mode)
  }

  /** The list drawn holds exactly the orders that pass the filter, each as
      often as it was loaded; Newest puts later orders first and keeps orders
      of the same time in loaded order; any other mode changes no position. */
  lemma ViewMeans(orders: seq<Order>, filter: string, query: string, mode: string)
    ensures var v := View(orders, filter, query, mode);
      && (forall i :: 0 <= i < |v| ==> Keep(v[i], filter, query))
      && multiset(v) <= multiset(orders)
      && (forall i :: 0 <= i < |orders| && Keep(orders[i], filter, query) ==> multiset(v)[orders[i]] == multiset(orders)[orders[i]])
      && (mode == "Newest" ==> forall i, j :: 0 <= i < j < |v| ==> v[i].createdAt >= v[j].createdAt)
      && (mode == "Newest" ==> forall k :: WithKey(v, Created, k) == WithKey(Filtered(orders, filter, query), Created, k))
      && (mode != "Newest" ==> v == Filtered(orders, filter, query))
  {
    var f := Filtered(orders, filter, query);
    var v := View(orders, filter, query, mode);
    if mode == "Newest" {
      SortDescProps(f, Created);
      forall i | 0 <= i < |v| ensures Keep(v[i], filter, query) {
        assert v[i] in multiset(v);
        var j :| 0 <= j < |f| && f[j] == v[i];
      }
    }
  }

  /** The search text spelled out: the four lower-cased fields with a space
      between each two. */
  lemma HaystackParts(o: Order)
    ensures Haystack(o) == Lower(o.id) + " " + Lower(o.customer.name) + " "
                           + Lower(o.customer.phone) + " " + Lower(o.customer.address)
  {
    var a, b, c, d := o.id, o.customer.name, o.customer.phone, o.customer.address;
    JoinFour(a, b, c, d);
    LowerSpaced(a, b, c, d);
  }

  lemma JoinFour(a: string, b: string, c: string, d: string)
    ensures Join([a, b, c, d], " ") == a + " " + b + " " + c + " " + d
  {
    assert [c, d][1..] == [d];
    assert Join([c, d], " ") == c + " " + d;
    assert [b, c, d][1..] == [c, d];
    assert Join([b, c, d], " ") == b + " " + (c + " " + d);
    assert [a, b, c, d][1..] == [b, c, d];
    assert Join([a, b, c, d], " ") == a + " " + (b + " " + (c + " " + d));
  }

  lemma LowerSpaced(a: string, b: string, c: string, d: string)
    ensures Lower(a + " " + b + " " + c + " " + d) == Lower(a) + " " + Lower(b) + " " + Lower(c) + " " + Lower(d)
  {
    LowerAppend(a + " " + b + " " + c + " ", d);
    LowerAppend(a + " " + b + " " + c, " ");
    LowerAppend(a + " " + b + " ", c);
    LowerAppend(a + " " + b, " ");
    LowerAppend(a + " ", b);
    LowerAppend(a, " ");
  }

  lemma LowerAppend(a: string, b: string)
    ensures Lower(a + b) == Lower(a) + Lower(b)
  {
  }

  /** A query found (ignoring case) in one of the four fields finds the order. */
  lemma FieldMatchFound(o: Order, query: string, k: nat)
    requires k < 4
    requires Contains(Lower(SearchFields(o)[k]), Lower(query))
    ensures Contains(Haystack(o), Lower(query))
  {
    var a, b, c, d := Lower(o.id), Lower(o.customer.name), Lower(o.customer.phone), Lower(o.customer.address);
    HaystackParts(o);
    assert Lower(SearchFields(o)[k]) == [a, b, c, d][k];
    InSpaced(a, b, c, d, Lower(query), k);
  }

  /** A piece found in one of four words is found in the words joined with
      spaces. */
  lemma InSpaced(a: string, b: string, c: string, d: string, q: string, k: nat)
    requires k < 4 && Contains([a, b, c, d][k], q)
    ensures Contains(a + " " + b + " " + c + " " + d, q)
  {
    var h := a + " " + b + " " + c + " " + d;
    if k == 0 {
      assert h == "" + a + (" " + b + " " + c + " " + d);
      ContainsInJoin("", a, " " + b + " " + c + " " + d, q);
    } else if k == 1 {
      assert h == (a + " ") + b + (" " + c + " " + d);
      ContainsInJoin(a + " ", b, " " + c + " " + d, q);
    } else if k == 2 {
      assert h == (a + " " + b + " ") + c + (" " + d);
      ContainsInJoin(a + " " + b + " ", c, " " + d, q);
    } else {
      assert h == (a + " " + b + " " + c + " ") + d + "";
      ContainsInJoin(a + " " + b + " " + c + " ", d, "", q);
    }
  }

  /** An order from customer "ravi", phone "98", address "pune", with id "7". */
  function Sample(items: seq<LineItem>, total: real): Order
  {
    Order("7", 0, None, Customer("ravi", "98", "pune"), items, total, "", "", PLACED)
  }

  lemma SampleHaystack(items: seq<LineItem>, total: real)
    ensures Haystack(Sample(items, total)) == "7 ravi 98 pune"
  {
    HaystackParts(Sample(items, total));
    assert Lower("7") == "7" && Lower("ravi") == "ravi";
    assert Lower("98") == "98" && Lower("pune") == "pune";
  }

  /** The joined text also matches a query that spans two fields, which no
      single field contains. */
  lemma SpanningMatch()
    ensures var o := Sample([], 0.0);
      && Contains(Haystack(o), "7 ravi")
      && forall k :: 0 <= k < 4 ==> !Contains(Lower(SearchFields(o)[k]), "7 ravi")
  {
    var o := Sample([], 0.0);
    SampleHaystack([], 0.0);
    assert Haystack(o)[0..6] == "7 ravi";
    assert Occurs(Haystack(o), "7 ravi", 0);
    forall k | 0 <= k < 4 ensures !Contains(Lower(SearchFields(o)[k]), "7 ravi") {
      assert |SearchFields(o)[k]| < 6;
    }
  }

  /** Item names are not searched: an order whose only match is a dish name
      is not found. */
  lemma ItemNamesNotSearched()
    ensures !Keep(Sample([LineItem("p1", "thali", 1, 120.0)], 120.0), "ALL", "thali")
  {
    var o := Sample([LineItem("p1", "thali", 1, 120.0)], 120.0);
    SampleHaystack(o.items, o.total);
    assert Lower("thali") == "thali";
    NotContainedWithoutFirst(Haystack(o), "thali");
  }

  /** renderActions: the next-status table, then the WhatsApp button; there is
      no print button. */
  function RenderActions(status: string): (r: seq<Button>)
    ensures |r| == |NextStatuses(status)| + 1 && r[|r| - 1] == WhatsAppButton
    ensures forall i :: 0 <= i < |r| - 1 ==> r[i] == StatusButton(NextStatuses(status)[i])
    ensures status == DELIVERED || status == CANCELLED ==> r == [WhatsAppButton]
  {
    StatusButtons(status) + [WhatsAppButton]
  }

  datatype Screen = Cards(orders: seq<Order>) | NoOrders | LoadError

  class Page {
    var orders: seq<Order>
    var filterStatus: string
    var search: string
    const sort: string
    var screen: Screen

    constructor ()
      ensures orders == [] && filterStatus == "ALL" && search == "" && sort == "Newest"
      ensures screen == NoOrders && Rendered()
    {
      orders := [];
      filterStatus := "ALL";
      search := "";
      sort := "Newest";
      screen := NoOrders;
    }

    /** The screen shows the cards of the current view, or the empty notice. */
    predicate Rendered()
      reads this
    {
      var v := View(orders, filterStatus, search, sort);
      screen == if v == [] then NoOrders else Cards(v)
    }

    method Render()
      modifies this`screen
      ensures Rendered()
    {
      var v := View(orders, filterStatus, search, sort);
      screen := if v == [] then NoOrders else Cards(v);
    }

    /** fetchOrders with the content of the orders file (None when it could
        not be read). */
    method FetchOrders(response: Option<seq<Order>>)
      modifies this`orders, this`screen
      ensures response.None? ==> orders == old(orders) && screen == LoadError
      ensures response.Some? ==> orders == response.value && Rendered()
    {
      if response.None? {
        screen := LoadError;
        return;
      }
      orders := response.value;
      Render();
    }

    /** updateStatus(id, next): nothing for an unknown id or a status outside
        STATUS, nothing when the dialog is declined; otherwise the first order
        with that id gets the status and a fresh updatedAt, whatever the
        next-status table says. */
    method UpdateStatus(id: string, next: string, confirmed: bool, now: int)
      modifies this`orders, this`screen
      ensures var idx := FindIndex(old(orders), (o: Order) => o.id == id);
        if idx.None? || !IsKnown(next) || !confirmed then orders == old(orders) && screen == old(screen)
        else orders == old(orders)[idx.value := old(orders)[idx.value].(status := next, updatedAt := Some(now))]
             && Rendered()
    {
      var idx := FindIndex(orders, (o: Order) => o.id == id);
      if idx.None? || !IsKnown(next) {
        return;
      }
      if !confirmed {
        return;
      }
      var i := idx.value;
      orders := orders[i := orders[i].(status := next, updatedAt := Some(now))];
      Render();
    }

    /** The search box: trimmed only; the render pass lower-cases it. */
    method OnSearchInput(value: string)
      modifies this`search, this`screen
      ensures search == Trim(value) && Rendered()
    {
      search := Trim(value);
      Render();
    }

    method OnFilterClick(status: string)
      modifies this`filterStatus, this`screen
      ensures filterStatus == (if status == "" then "ALL" else status) && Rendered()
    {
      filterStatus := if status == "" then "ALL" else status;
      Render();
    }
  }
}
