/** The second admin dashboard: orders are loaded with the admin key, filtered
    by status and search text, and a status changes only after the server has
    accepted it; only a cancellation asks for confirmation. Auto-refresh keeps
    at most one interval timer alive. */
module AdminDashboardV2 {
  import opened Seqs
  import opened Text
  import opened Orders
  import opened OrderStatus

  /** The buttons of an order card: the next-status table. */
  function GetNextActions(status: string): (r: seq<string>)
    ensures status == PLACED ==> r == [CONFIRMED, CANCELLED]
    ensures status == CONFIRMED ==> r == [DISPATCHED, CANCELLED]
    ensures status == DISPATCHED ==> r == [DELIVERED]
    ensures status != PLACED && status != CONFIRMED && status != DISPATCHED ==> r == []
  {
    NextStatuses(status)
  }

  /** The render filter. The search text is compared as stored (both ways of
      setting it lower-case it); empty fields are dropped first, which changes
      nothing for a non-empty search. */
  predicate Keep(o: Order, filter: string, search: string)
  {
    (filter == "ALL" || o.status == filter)
    && (search == "" ||
        exists i :: 0 <= i < |SearchFields(o)| && SearchFields(o)[i] != "" && Contains(Lower(SearchFields(o)[i]), search))
  }

  function Visible(orders: seq<Order>, filter: string, search: string): seq<Order>
  {
    Filter(orders, (o: Order) => Keep(o, filter, search))
  }

  /** The cards drawn are the orders that pass the filter, in their loaded
      order, each exactly as often as it was loaded. */
  lemma VisibleMeans(orders: seq<Order>, filter: string, search: string)
    ensures var v := Visible(orders, filter, search);
      && IsSubseq(v, orders)
      && (forall i :: 0 <= i < |v| ==> Keep(v[i], filter, search))
      && (forall i :: 0 <= i < |orders| && Keep(orders[i], filter, search) ==>
            multiset(v)[orders[i]] == multiset(orders)[orders[i]])
      && (filter == "ALL" && search == "" ==> v == orders)
  {
    var p := (o: Order) => Keep(o, filter, search);
    var v := Visible(orders, filter, search);
    FilterIsSubseq(orders, p);
    forall i | 0 <= i < |orders| && p(orders[i]) ensures multiset(v)[orders[i]] == multiset(orders)[orders[i]] {
      assert multiset(v)[orders[i]] == multiset(orders)[orders[i]] > 0;
    }
    if filter == "ALL" && search == "" {
      FilterAll(orders, p);
    }
  }

  /** Dropping the empty fields changes nothing for a non-empty search, so the
      filter is the same as the first dashboard's over the lower-cased fields. */
  lemma EmptyFieldsIrrelevant(o: Order, filter: string, search: string)
    requires search != ""
    ensures Keep(o, filter, search) <==>
      (filter == "ALL" || o.status == filter)
      && exists i :: 0 <= i < |SearchFields(o)| && Contains(Lower(SearchFields(o)[i]), search)
  {
    var f := SearchFields(o);
    if exists i :: 0 <= i < |f| && Contains(Lower(f[i]), search) {
      var i :| 0 <= i < |f| && Contains(Lower(f[i]), search);
      var k :| 0 <= k <= |Lower(f[i])| && Occurs(Lower(f[i]), search, k);
      assert f[i] != "";
    }
  }

  /** What the orders container shows. */
  datatype Screen = Cards(orders: seq<Order>) | NoMatches | LoadError

  /** What GET /api/orders answered: a failure, a JSON value that is not an
      array, or an array of orders. */
  datatype Response = Failed | NotAnArray | Orders(orders: seq<Order>)

  datatype Click = Ignored | Declined | Updated | Rejected

  class Dashboard {
    var key: string
    var orders: seq<Order>
    var filter: string
    var search: string
    var autoRefresh: bool
    /** state.timer: the handle stored by the last setInterval. */
    var timer: Option<nat>
    /** The interval timers that are still armed. */
    var active: set<nat>
    var nextHandle: nat
    var screen: Screen
    /** The values kept in the browser's storage under gkk_admin_key and
        gkk_admin_filter ("" when nothing is stored). */
    var storedKey: string
    var storedFilter: string

    /** At most one timer is armed, and it is the stored one. */
    predicate Valid()
      reads this
    {
      (timer.None? ==> active == {})
      && (timer.Some? ==> active <= {timer.value} && timer.value < nextHandle)
    }

    constructor (savedKey: string, savedFilter: string)
      ensures Valid()
      ensures key == savedKey && filter == (if savedFilter == "" then "ALL" else savedFilter)
      ensures orders == [] && search == "" && !autoRefresh && timer == None && active == {}
      ensures storedKey == savedKey && storedFilter == savedFilter
      ensures screen == NoMatches && Rendered()
    {
      key := savedKey;
      orders := [];
      filter := if savedFilter == "" then "ALL" else savedFilter;
      search := "";
      autoRefresh := false;
      timer := None;
      active := {};
      nextHandle := 0;
      screen := NoMatches;
      storedKey := savedKey;
      storedFilter := savedFilter;
    }

    /** The screen shows the visible cards, or the empty-state message. */
    predicate Rendered()
      reads this
    {
      var v := Visible(orders, filter, search);
      screen == if v == [] then NoMatches else Cards(v)
    }

    /** render(): the visible cards, or the empty-state message. */
    method Render()
      modifies this`screen
      ensures Rendered()
    {
      var v := Visible(orders, filter, search);
      screen := if v == [] then NoMatches else Cards(v);
    }

    /** refresh(): nothing is fetched without a key; a non-array answer empties
        the list; a failed request keeps the list and shows the error. */
    method Refresh(response: Response)
      modifies this`orders, this`screen
      ensures key == "" ==> orders == old(orders) && screen == old(screen)
      ensures key != "" && response.Failed? ==> orders == old(orders) && screen == LoadError
      ensures key != "" && response.NotAnArray? ==> orders == [] && screen == NoMatches
      ensures key != "" && response.Orders? ==> orders == response.orders
      ensures key != "" && !response.Failed? ==> Rendered()
    {
      if key == "" {
        return;
      }
      match response {
        case Failed =>
          screen := LoadError;
        case NotAnArray =>
          orders := [];
          assert Visible(orders, filter, search) == [];
          Render();
        case Orders(data) =>
          orders := data;
          Render();
      }
    }

    /** The key form: the trimmed key is kept; when it is not empty it is also
        stored and a refresh follows. */
    method Submit(value: string, response: Response)
      modifies this`key, this`storedKey, this`orders, this`screen
      ensures key == Trim(value)
      ensures key == "" ==> orders == old(orders) && screen == old(screen) && storedKey == old(storedKey)
      ensures key != "" ==> storedKey == key
      ensures key != "" && response.Failed? ==> orders == old(orders) && screen == LoadError
      ensures key != "" && response.NotAnArray? ==> orders == [] && screen == NoMatches
      ensures key != "" && response.Orders? ==> orders == response.orders
      ensures key != "" && !response.Failed? ==> Rendered()
    {
      key := Trim(value);
      if key == "" {
        return;
      }
      storedKey := key;
      Refresh(response);
    }

    /** GKKAdmin.filter and the filter buttons: an empty status selects ALL,
        and the choice is stored. */
    method SetFilter(status: string)
      modifies this`filter, this`storedFilter, this`screen
      ensures filter == (if status == "" then "ALL" else status)
      ensures storedFilter == filter
      ensures Rendered()
    {
      filter := if status == "" then "ALL" else status;
      storedFilter := filter;
      Render();
    }

    /** GKKAdmin.search: lower-cased, not trimmed. */
    method SetSearch(text: string)
      modifies this`search, this`screen
      ensures search == Lower(text) && Rendered()
    {
      search := Lower(text);
      Render();
    }

    /** The search box: trimmed, then lower-cased. */
    method OnSearchInput(value: string)
      modifies this`search, this`screen
      ensures search == Lower(Trim(value)) && Rendered()
    {
      search := Lower(Trim(value));
      Render();
    }

    /** A status button. Nothing happens for an unknown order or an empty next
        status; only CANCELLED asks for confirmation; the order is changed only
        once the server has accepted the change (a reply carrying an error is a
        rejection), and a rejection leaves every order as it was. */
    method OnOrdersClick(id: string, next: string, confirmed: bool, accepted: bool, now: int)
      returns (result: Click)
      modifies this`orders, this`screen
      ensures var idx := FindIndex(old(orders), (o: Order) => o.id == id);
        result == (if idx.None? || next == "" then Ignored
                   else if next == CANCELLED && !confirmed then Declined
                   else if accepted then Updated else Rejected)
      ensures result != Updated ==> orders == old(orders) && screen == old(screen)
      ensures result == Updated ==>
        var i := FindIndex(old(orders), (o: Order) => o.id == id).value;
        && orders == old(orders)[i := old(orders)[i].(status := next, updatedAt := Some(now))]
        && Rendered()
    {
      var idx := FindIndex(orders, (o: Order) => o.id == id);
      if idx.None? || next == "" {
        return Ignored;
      }
      var ok := if next == CANCELLED then confirmed else true;
      if !ok {
        return Declined;
      }
      if !accepted {
        return Rejected;
      }
      var i := idx.value;
      orders := orders[i := orders[i].(status := next, updatedAt := Some(now))];
      Render();
      return Updated;
    }

    /** togglePolling(): the stored timer is cleared first, and a new one is
        armed only when auto-refresh is on. The stored handle is not reset. */
    method TogglePolling()
      requires Valid()
      modifies this`timer, this`active, this`nextHandle
      ensures Valid()
      ensures autoRefresh ==> timer == Some(old(nextHandle)) && active == {old(nextHandle)}
      ensures !autoRefresh ==> timer == old(timer) && active == {}
    {
      if timer.Some? {
        active := active - {timer.value};
      }
      assert active == {};
      if autoRefresh {
        timer := Some(nextHandle);
        active := active + {nextHandle};
        nextHandle := nextHandle + 1;
      }
    }

    /** The auto-refresh switch. */
    method OnAutoRefreshChange(checked: bool)
      requires Valid()
      modifies this`autoRefresh, this`timer, this`active, this`nextHandle
      ensures Valid() && autoRefresh == checked
      ensures |active| == (if checked then 1 else 0)
    {
      autoRefresh := checked;
      TogglePolling();
    }
  }
}
