/** The main admin dashboard: orders fetched with the admin key are scored,
    filtered by status, searched, sorted and drawn; status changes are applied
    optimistically and the status is put back when the request fails; a render
    pass is skipped when nothing it depends on has changed; polling is an on/off
    switch. */
module AdminDashboard {
  import opened Seqs
  import opened Text
  import opened Orders
  import opened OrderStatus
  import opened Priority

  /** An order with the score and sub-scores prioritize wrote onto it. */
  datatype Triaged = Triaged(order: Order, score: real, expl: Explanation)

  const NO_EXPLANATION: Explanation := Explanation(0.0, 0.0, 0.0, 0.0, 0.0, 0.0)

  /** The part of an order the render hash records. */
  datatype Stamp = Stamp(id: string, updatedAt: Option<int>, status: string, score: real)

  /** The render hash: JSON.stringify of the key, the order stamps, the status
      filter, the search text and the sort mode. Equal values stand for equal
      JSON texts. */
  datatype RenderKey = RenderKey(key: string, stamps: seq<Stamp>, filter: string, search: string, sort: string)

  datatype Outcome = Ignored | Declined | Applied | Reverted

  function OrdersOf(ts: seq<Triaged>): (r: seq<Order>)
    ensures |r| == |ts|
    ensures forall i :: 0 <= i < |ts| ==> r[i] == ts[i].order
  {
    seq(|ts|, i requires 0 <= i < |ts| => ts[i].order)
  }

  /** What prioritize leaves in the list: every order with its fresh score. */
  function Rescored(os: seq<Order>, now: int, hour: int): (r: seq<Triaged>)
    ensures |r| == |os| && OrdersOf(r) == os
    ensures forall i :: 0 <= i < |r| ==>
      r[i].score == PriorityScore(os[i], now, hour) && r[i].expl == Explain(os[i], now, hour)
  {
    seq(|os|, i requires 0 <= i < |os| => Triaged(os[i], PriorityScore(os[i], now, hour), Explain(os[i], now, hour)))
  }

  function Stamps(ts: seq<Triaged>): seq<Stamp>
  {
    seq(|ts|, i requires 0 <= i < |ts| => Stamp(ts[i].order.id, ts[i].order.updatedAt, ts[i].order.status, ts[i].score))
  }

  /** `state.orders.find(o => String(o.id) === String(id))`, as a position. */
  function IndexOf(ts: seq<Triaged>, id: string): (r: Option<nat>)
    ensures r.Some? ==> r.value < |ts| && ts[r.value].order.id == id
    ensures r.Some? ==> forall j :: 0 <= j < r.value ==> ts[j].order.id != id
    ensures r.None? <==> forall j :: 0 <= j < |ts| ==> ts[j].order.id != id
  {
    FindIndex(ts, (t: Triaged) => t.order.id == id)
  }

  /** The render filter: the status filter (ALL passes everything), then a
      case-insensitive search over id, customer name, phone, address and item
      names when the search text is non-empty. */
  predicate Matches(t: Triaged, status: string, search: string)
  {
    (status == "ALL" || t.order.status == status)
    && (search == "" ||
        exists i :: 0 <= i < |SearchFields(t.order)| && Contains(Lower(SearchFields(t.order)[i]), Lower(search)))
  }

  /** The sort comparators as keys, largest first: AI by score, Newest by
      creation time, Oldest by negated creation time, High Value by total; any
      other mode compares every pair as equal. */
  function SortKey(mode: string): Triaged -> real
  {
    if mode == "AI" then (t: Triaged) => t.score
    else if mode == "Newest" then (t: Triaged) => t.order.createdAt as real
    else if mode == "Oldest" then (t: Triaged) => -(t.order.createdAt as real)
    else if mode == "High Value" then (t: Triaged) => t.order.total
    else (t: Triaged) => 0.0
  }

  function Filtered(ts: seq<Triaged>, status: string, search: string): seq<Triaged>
  {
    Filter(ts, (t: Triaged) => Matches(t, status, search))
  }

  /** The list a render pass draws. */
  function View(ts: seq<Triaged>, status: string, search: string, mode: string): seq<Triaged>
  {
    SortDesc(Filtered(ts, status, search), SortKey(mode))
  }

  /** The drawn list holds exactly the orders that pass the filter, each as
      often as in the fetched list, and nothing else. */
  lemma ViewContents(ts: seq<Triaged>, status: string, search: string, mode: string)
    ensures var v := View(ts, status, search, mode);
      && (forall i :: 0 <= i < |v| ==> Matches(v[i], status, search))
      && multiset(v) <= multiset(ts)
      && (forall i :: 0 <= i < |ts| && Matches(ts[i], status, search) ==> multiset(v)[ts[i]] == multiset(ts)[ts[i]])
  {
    var f := Filtered(ts, status, search);
    var v := View(ts, status, search, mode);
    SortDescProps(f, SortKey(mode));
    forall i | 0 <= i < |v| ensures Matches(v[i], status, search) {
      assert v[i] in multiset(v);
      var j :| 0 <= j < |f| && f[j] == v[i];
    }
  }

  /** The drawn list is ordered as the sort mode says; orders that compare
      equal keep their fetched order, and an unknown mode keeps the filtered
      list as it is. */
  lemma ViewOrder(ts: seq<Triaged>, status: string, search: string, mode: string)
    ensures var v := View(ts, status, search, mode);
      && (mode == "AI" ==> forall i, j :: 0 <= i < j < |v| ==> v[i].score >= v[j].score)
      && (mode == "Newest" ==> forall i, j :: 0 <= i < j < |v| ==> v[i].order.createdAt >= v[j].order.createdAt)
      && (mode == "Oldest" ==> forall i, j :: 0 <= i < j < |v| ==> v[i].order.createdAt <= v[j].order.createdAt)
      && (mode == "High Value" ==> forall i, j :: 0 <= i < j < |v| ==> v[i].order.total >= v[j].order.total)
      && (forall k :: WithKey(v, SortKey(mode), k) == WithKey(Filtered(ts, status, search), SortKey(mode), k))
      && (mode != "AI" && mode != "Newest" && mode != "Oldest" && mode != "High Value" ==> v == Filtered(ts, status, search))
  {
    var f := Filtered(ts, status, search);
    SortDescProps(f, SortKey(mode));
    if mode != "AI" && mode != "Newest" && mode != "Oldest" && mode != "High Value" {
      SortDescConstant(f, SortKey(mode), 0.0);
    }
  }

  /** The keyboard shortcuts on an order card: c, d, l and x in either case. */
  function KeyToStatus(key: string): (r: Option<string>)
    ensures r.Some? ==> IsKnown(r.value) && r.value != PLACED
    ensures r.Some? <==> Lower(key) in ["c", "d", "l", "x"]
  {
    var k := Lower(key);
    if k == "c" then Some(CONFIRMED)
    else if k == "d" then Some(DISPATCHED)
    else if k == "l" then Some(DELIVERED)
    else if k == "x" then Some(CANCELLED)
    else None
  }

  /** The shortcut map does not consult the next-status table: 'l' asks for
      DELIVERED, which the table never offers to a PLACED order. */
  lemma ShortcutSkipsTable()
    ensures KeyToStatus("l") == Some(DELIVERED)
    ensures DELIVERED !in NextStatuses(PLACED)
  {
    assert Lower("l") == "l";
  }

  /** renderActions: the table's status buttons, then WhatsApp and Print. */
  function Actions(status: string): (r: seq<Button>)
    ensures |r| == |NextStatuses(status)| + 2
    ensures r[|r| - 2] == WhatsAppButton && r[|r| - 1] == PrintButton
    ensures forall i :: 0 <= i < |r| - 2 ==> r[i] == StatusButton(NextStatuses(status)[i])
    ensures IsTerminal(status) ==> r == [WhatsAppButton, PrintButton]
  {
    StatusButtons(status) + [WhatsAppButton, PrintButton]
  }

  class Dashboard {
    var adminKey: string
    var orders: seq<Triaged>
    var filterStatus: string
    var search: string
    var sort: string
    var polling: bool
    var lastRenderHash: Option<RenderKey>
    /** The cards on screen after the last full render pass. */
    var shown: seq<Triaged>
    /** Whether the orders area holds the load error notice in place of the
        cards; the next full render pass draws the cards again. */
    var errorShown: bool

    constructor ()
      ensures adminKey == "" && orders == [] && filterStatus == "ALL" && search == ""
      ensures sort == "AI" && !polling && lastRenderHash == None && shown == [] && !errorShown
    {
      adminKey := "";
      orders := [];
      filterStatus := "ALL";
      search := "";
      sort := "AI";
      polling := false;
      lastRenderHash := None;
      shown := [];
      errorShown := false;
    }

    function Key(): RenderKey
      reads this`adminKey, this`orders, this`filterStatus, this`search, this`sort
    {
      RenderKey(adminKey, Stamps(orders), filterStatus, search, sort)
    }

    /** render(force): skipped when not forced and the hash is the one of the
        last full pass; otherwise records the hash and draws the view. */
    method Render(force: bool)
      modifies this
      ensures !force && old(lastRenderHash) == Some(old(Key())) ==> unchanged(this)
      ensures force || old(lastRenderHash) != Some(old(Key())) ==>
        shown == View(orders, filterStatus, search, sort) && !errorShown
      ensures lastRenderHash == Some(Key())
      ensures adminKey == old(adminKey) && orders == old(orders) && filterStatus == old(filterStatus)
      ensures search == old(search) && sort == old(sort) && polling == old(polling)
    {
      var hash := Key();
      if !force && lastRenderHash == Some(hash) {
        return;
      }
      errorShown := false;
      lastRenderHash := Some(hash);
      shown := View(orders, filterStatus, search, sort);
    }

    /** prioritize(state.orders): writes score and sub-scores onto every order,
        in place and in list order. */
    method Prioritize(now: int, hour: int)
      modifies this
      ensures orders == Rescored(OrdersOf(old(orders)), now, hour)
      ensures adminKey == old(adminKey) && filterStatus == old(filterStatus) && search == old(search)
      ensures sort == old(sort) && polling == old(polling) && lastRenderHash == old(lastRenderHash)
      ensures shown == old(shown) && errorShown == old(errorShown)
    {
      ghost var before := orders;
      var i := 0;
      while i < |orders|
        invariant 0 <= i <= |orders| == |before|
        invariant forall j :: 0 <= j < i ==>
          orders[j] == Triaged(before[j].order, PriorityScore(before[j].order, now, hour), Explain(before[j].order, now, hour))
        invariant forall j :: i <= j < |orders| ==> orders[j] == before[j]
        invariant adminKey == old(adminKey) && filterStatus == old(filterStatus) && search == old(search)
        invariant sort == old(sort) && polling == old(polling) && lastRenderHash == old(lastRenderHash)
        invariant shown == old(shown) && errorShown == old(errorShown)
      {
        var o := orders[i].order;
        orders := orders[i := Triaged(o, PriorityScore(o, now, hour), Explain(o, now, hour))];
        i := i + 1;
      }
      assert orders == Rescored(OrdersOf(before), now, hour);
    }

    /** fetchOrders with the response of GET /api/orders (None when the request
        fails). Without a key nothing is requested; a failure puts the error
        notice in place of the cards and leaves the orders and the render hash
        as they were. */
    method FetchOrders(response: Option<seq<Order>>, now: int, hour: int)
      modifies this
      ensures adminKey == "" ==> unchanged(this)
      ensures adminKey != "" && response.None? ==>
        && errorShown
        && orders == old(orders) && shown == old(shown) && lastRenderHash == old(lastRenderHash)
      ensures adminKey != "" && response.Some? ==>
        orders == Rescored(response.value, now, hour)
        && shown == View(orders, filterStatus, search, sort) && lastRenderHash == Some(Key()) && !errorShown
      ensures adminKey == old(adminKey) && filterStatus == old(filterStatus) && search == old(search)
      ensures sort == old(sort) && polling == old(polling)
    {
      if adminKey == "" {
        return;
      }
      if response.None? {
        errorShown := true;
        return;
      }
      var data := response.value;
      orders := seq(|data|, i requires 0 <= i < |data| => Triaged(data[i], 0.0, NO_EXPLANATION));
      assert OrdersOf(orders) == data;
      Prioritize(now, hour);
      Render(true);
    }

    /** Replaces the order at position i, then re-scores and redraws. */
    method ReplaceAt(i: nat, o: Order, now: int, hour: int)
      requires i < |orders|
      modifies this
      ensures OrdersOf(orders) == OrdersOf(old(orders))[i := o]
      ensures orders == Rescored(OrdersOf(orders), now, hour)
      ensures shown == View(orders, filterStatus, search, sort) && lastRenderHash == Some(Key()) && !errorShown
      ensures adminKey == old(adminKey) && filterStatus == old(filterStatus) && search == old(search)
      ensures sort == old(sort) && polling == old(polling)
    {
      ghost var before := OrdersOf(orders);
      orders := orders[i := orders[i].(order := o)];
      assert OrdersOf(orders) == before[i := o];
      Prioritize(now, hour);
      Render(true);
    }

    /** updateStatus(id, next): ignored for a status outside STATUS or an
        unknown id, declined when the dialog is declined; otherwise the status
        and updatedAt are set before the request, and only the status is put
        back when the request fails. The next-status table is not consulted. */
    method UpdateStatus(id: string, next: string, confirmed: bool, requestOk: bool, now: int, hour: int)
      returns (outcome: Outcome)
      modifies this
      ensures outcome == (if !IsKnown(next) || IndexOf(old(orders), id).None? then Ignored
                          else if !confirmed then Declined
                          else if requestOk then Applied else Reverted)
      ensures outcome == Ignored || outcome == Declined ==> unchanged(this)
      ensures |orders| == |old(orders)|
      ensures outcome == Applied || outcome == Reverted ==>
        var i := IndexOf(old(orders), id).value;
        var o := old(orders[i].order);
        && OrdersOf(orders) == OrdersOf(old(orders))[i := o.(status := if outcome == Applied then next else o.status,
                                                             updatedAt := Some(now))]
        && orders == Rescored(OrdersOf(orders), now, hour)
        && shown == View(orders, filterStatus, search, sort) && lastRenderHash == Some(Key()) && !errorShown
      ensures adminKey == old(adminKey) && filterStatus == old(filterStatus) && search == old(search)
      ensures sort == old(sort) && polling == old(polling)
    {
      if !IsKnown(next) {
        return Ignored;
      }
      var idx := IndexOf(orders, id);
      if idx.None? {
        return Ignored;
      }
      if !confirmed {
        return Declined;
      }
      var i := idx.value;
      var o := orders[i].order;
      ghost var base := OrdersOf(orders);
      var optimistic := o.(status := next, updatedAt := Some(now));
      ReplaceAt(i, optimistic, now, hour);
      if requestOk {
        return Applied;
      }
      var reverted := optimistic.(status := o.status);
      ReplaceAt(i, reverted, now, hour);
      assert base[i := optimistic][i := reverted] == base[i := reverted];
      return Reverted;
    }

    /** The keydown handler of an order card: a mapped key runs
        updateStatus with its status, any other key does nothing. */
    method OnKeydown(id: string, key: string, confirmed: bool, requestOk: bool, now: int, hour: int)
      returns (outcome: Outcome)
      modifies this
      ensures KeyToStatus(key).None? ==> outcome == Ignored && unchanged(this)
      ensures KeyToStatus(key).Some? ==>
        outcome == (if IndexOf(old(orders), id).None? then Ignored
                    else if !confirmed then Declined
                    else if requestOk then Applied else Reverted)
      ensures outcome == Ignored || outcome == Declined ==> unchanged(this)
      ensures |orders| == |old(orders)|
      ensures outcome == Applied || outcome == Reverted ==>
        var next := KeyToStatus(key).value;
        var i := IndexOf(old(orders), id).value;
        var o := old(orders[i].order);
        && OrdersOf(orders) == OrdersOf(old(orders))[i := o.(status := if outcome == Applied then next else o.status,
                                                             updatedAt := Some(now))]
        && orders == Rescored(OrdersOf(orders), now, hour)
        && shown == View(orders, filterStatus, search, sort) && lastRenderHash == Some(Key()) && !errorShown
      ensures adminKey == old(adminKey) && filterStatus == old(filterStatus) && search == old(search)
      ensures sort == old(sort) && polling == old(polling)
    {
      var next := KeyToStatus(key);
      if next.None? {
        return Ignored;
      }
      outcome := UpdateStatus(id, next.value, confirmed, requestOk, now, hour);
    }

    /** The search box: trimmed and lower-cased, then a forced render. */
    method OnSearchInput(value: string)
      modifies this
      ensures search == Lower(Trim(value))
      ensures shown == View(orders, filterStatus, search, sort) && lastRenderHash == Some(Key()) && !errorShown
      ensures adminKey == old(adminKey) && orders == old(orders) && filterStatus == old(filterStatus)
      ensures sort == old(sort) && polling == old(polling)
    {
      search := Lower(Trim(value));
      Render(true);
    }

    /** A filter button; a button without a status selects ALL. */
    method OnFilterClick(status: string)
      modifies this
      ensures filterStatus == (if status == "" then "ALL" else status)
      ensures shown == View(orders, filterStatus, search, sort) && lastRenderHash == Some(Key()) && !errorShown
      ensures adminKey == old(adminKey) && orders == old(orders) && search == old(search)
      ensures sort == old(sort) && polling == old(polling)
    {
      filterStatus := if status == "" then "ALL" else status;
      Render(true);
    }

    /** The key input keeps the trimmed value. */
    method OnAdminKeyChange(value: string)
      modifies this`adminKey
      ensures adminKey == Trim(value)
    {
      adminKey := Trim(value);
    }

    method StartPolling()
      modifies this`polling
      ensures polling
    {
      if polling {
        return;
      }
      polling := true;
    }

    method StopPolling()
      modifies this`polling
      ensures !polling
    {
      if !polling {
        return;
      }
      polling := false;
    }

    method TogglePolling()
      modifies this`polling
      ensures polling == !old(polling)
    {
      if polling {
        StopPolling();
      } else {
        StartPolling();
      }
    }
  }
}
