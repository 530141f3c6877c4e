/** The Express server: it serves the veg dishes of the menu file, takes
    customer orders (validating the body, completing each item from the
    menu and computing the total), and lets the admin list orders and set
    an order's status behind an admin key. */
module OrderServer {
  import opened Seqs
  import opened Text
  import opened Catalog
  import opened Orders
  import opened OrderStatus

  const UNAUTHORIZED: string := "Unauthorized"
  const ORDER_NOT_FOUND: string := "Order not found"
  const INVALID_STATUS: string := "Invalid status"
  const STATUS_NOT_SAVED: string := "Failed to persist order status"
  const ITEMS_REQUIRED: string := "Items are required"
  const CUSTOMER_REQUIRED: string := "Customer name, phone, and address are required"
  const PAYMENT_REQUIRED: string := "Payment method is required"
  const ORDER_NOT_SAVED: string := "Failed to persist order"
  /** The stored phone keeps at most this many trailing digits. */
  const PHONE_KEEP: nat := 12

  /** A JSON reply: the value sent, or an HTTP error code with its message. */
  datatype Reply<T> = Ok(value: T) | Fail(code: int, error: string)

  /** An item of a posted order: `name` is "" when missing, `price` is None
      unless the client sent a finite number, `qty` is 0 when missing. */
  datatype ItemIn = ItemIn(id: string, name: string, price: Option<real>, qty: int)

  /** The body of POST /api/order: `items` is None when it is not an array;
      missing customer fields, payment method and notes are "". */
  datatype OrderBody = OrderBody(items: Option<seq<ItemIn>>, customer: Customer, paymentMethod: string, notes: string)

  /** The admin key check: an unset ADMIN_KEY ("") refuses every request. */
  predicate Authorized(adminKey: string, key: string)
  {
    adminKey != "" && key == adminKey
  }

  // ---------- menu ----------

  /** menuMap: every dish under its id, a later dish with the same id
      replacing an earlier one. */
  function MenuMap(menu: seq<Dish>): map<string, Dish>
  {
    if menu == [] then map[]
    else MenuMap(menu[..|menu| - 1])[menu[|menu| - 1].id := menu[|menu| - 1]]
  }

  /** An id is in the map exactly when some dish has it, and it maps to the
      last dish of the menu with that id. */
  lemma {:induction false} MenuMapLookup(menu: seq<Dish>, id: string)
    ensures id in MenuMap(menu) <==> exists i :: 0 <= i < |menu| && menu[i].id == id
    ensures id in MenuMap(menu) ==>
      exists i :: 0 <= i < |menu| && MenuMap(menu)[id] == menu[i] && menu[i].id == id
        && forall j :: i < j < |menu| ==> menu[j].id != id
  {
    if menu != [] {
      var init := menu[..|menu| - 1];
      var last := menu[|menu| - 1];
      MenuMapLookup(init, id);
      if last.id == id {
        assert MenuMap(menu)[id] == menu[|menu| - 1];
      } else {
        assert forall i :: 0 <= i < |init| ==> init[i] == menu[i];
        if id in MenuMap(init) {
          var i :| 0 <= i < |init| && MenuMap(init)[id] == init[i] && init[i].id == id
            && forall j :: i < j < |init| ==> init[j].id != id;
          assert MenuMap(menu)[id] == menu[i];
        }
      }
    }
  }

  // ---------- orders ----------

  /** The messages of the three checks on a posted body, in the order the
      handler makes them. */
  function BodyError(b: OrderBody): (e: Option<string>)
    ensures e.None? <==>
      b.items.Some? && b.items.value != [] && b.customer.name != "" && b.customer.phone != ""
      && b.customer.address != "" && b.paymentMethod != ""
    ensures e == Some(ITEMS_REQUIRED) <==> b.items.None? || b.items.value == []
    ensures e == Some(CUSTOMER_REQUIRED) ==> b.items.Some? && b.items.value != []
    ensures e == Some(PAYMENT_REQUIRED) ==>
      b.items.Some? && b.items.value != [] && b.customer.name != "" && b.customer.phone != "" && b.customer.address != ""
  {
    if b.items.None? || |b.items.value| == 0 then Some(ITEMS_REQUIRED)
    else if b.customer.name == "" || b.customer.phone == "" || b.customer.address == "" then Some(CUSTOMER_REQUIRED)
    else if b.paymentMethod == "" then Some(PAYMENT_REQUIRED)
    else None
  }

  /** One item completed from the menu: the client's name, else the menu's,
      else the id; the client's price if it is a finite number, else the
      menu's, else 0; a missing, zero or negative quantity becomes 1. */
  function NormItem(it: ItemIn, menuMap: map<string, Dish>): (r: LineItem)
    ensures r.id == it.id
    ensures r.qty >= 1 && (it.qty >= 1 ==> r.qty == it.qty)
    ensures it.price.Some? ==> r.price == it.price.value
    ensures it.price.None? && it.id !in menuMap ==> r.price == 0.0
    ensures it.name != "" ==> r.name == it.name
    ensures r.name == "" ==> it.id == ""
  {
    var fromMenu := if it.id in menuMap then Some(menuMap[it.id]) else None;
    var name := if it.name != "" then it.name
      else if fromMenu.Some? && fromMenu.value.name != "" then fromMenu.value.name
      else it.id;
    var price := if it.price.Some? then it.price.value
      else if fromMenu.Some? then PriceOrZero(fromMenu.value)
      else 0.0;
    var raw := if it.qty != 0 then it.qty else 1;
    LineItem(it.id, name, if raw < 1 then 1 else raw, price)
  }

  /** `items.map(...)` */
  function Normalized(items: seq<ItemIn>, menuMap: map<string, Dish>): (r: seq<LineItem>)
    ensures |r| == |items|
    ensures forall i :: 0 <= i < |r| ==> r[i] == NormItem(items[i], menuMap)
  {
    seq(|items|, i requires 0 <= i < |items| => NormItem(items[i], menuMap))
  }

  /** A stored item posted back as it is. */
  function AsInput(l: LineItem): ItemIn
  {
    ItemIn(l.id, l.name, Some(l.price), l.qty)
  }

  /** Normalising is a fixed point: posting the normalised items again
      stores them unchanged. */
  lemma NormalizedIdempotent(items: seq<ItemIn>, menuMap: map<string, Dish>)
    ensures var n := Normalized(items, menuMap);
      Normalized(seq(|n|, i requires 0 <= i < |n| => AsInput(n[i])), menuMap) == n
  {
    var n := Normalized(items, menuMap);
    var again := seq(|n|, i requires 0 <= i < |n| => AsInput(n[i]));
    forall i | 0 <= i < |n| ensures NormItem(again[i], menuMap) == n[i] {
      var it := items[i];
      if it.name == "" && n[i].name == "" {
        assert it.id == "";
      }
    }
  }

  /** `reduce((sum, i) => sum + i.qty * i.price, 0)` */
  function ItemsTotal(items: seq<LineItem>): real
  {
    if items == [] then 0.0
    else ItemsTotal(items[..|items| - 1]) + items[|items| - 1].qty as real * items[|items| - 1].price
  }

  /** With prices that are not negative, neither is the total, and it is at
      least the amount of any one item. */
  lemma {:induction false} ItemsTotalBounds(items: seq<LineItem>)
    requires forall i :: 0 <= i < |items| ==> items[i].price >= 0.0 && items[i].qty >= 1
    ensures ItemsTotal(items) >= 0.0
    ensures forall i :: 0 <= i < |items| ==> ItemsTotal(items) >= items[i].qty as real * items[i].price
  {
    if items != [] {
      var init := items[..|items| - 1];
      var last := items[|items| - 1];
      ItemsTotalBounds(init);
      assert last.qty as real * last.price >= 0.0 by {
        assert last.qty as real >= 1.0 && last.price >= 0.0;
      }
      forall i | 0 <= i < |items| ensures ItemsTotal(items) >= items[i].qty as real * items[i].price {
        if i < |init| {
          assert init[i] == items[i];
        }
      }
    }
  }

  /** The order created for an accepted body. */
  function NewOrder(b: OrderBody, menuMap: map<string, Dish>, id: string, now: int): Order
    requires b.items.Some?
  {
    var items := Normalized(b.items.value, menuMap);
    Order(
      id, now, None,
      Customer(Trim(b.customer.name), SanitizePhone(b.customer.phone, PHONE_KEEP), Trim(b.customer.address)),
      items, ItemsTotal(items), b.paymentMethod, b.notes, PLACED)
  }

  /** A new order is PLACED, keeps the posted items in order with their ids,
      stores a phone of at most twelve digits that the sanitiser leaves as
      it is, and has a total that is not negative when no posted or menu
      price is. */
  lemma NewOrderMeans(b: OrderBody, menuMap: map<string, Dish>, id: string, now: int)
    requires b.items.Some?
    ensures var o := NewOrder(b, menuMap, id, now);
      && o.status == PLACED && o.id == id && o.createdAt == now
      && |o.items| == |b.items.value|
      && (forall i :: 0 <= i < |o.items| ==> o.items[i].id == b.items.value[i].id && o.items[i].qty >= 1)
      && |o.customer.phone| <= PHONE_KEEP
      && SanitizePhone(o.customer.phone, PHONE_KEEP) == o.customer.phone
      && ((forall i :: 0 <= i < |b.items.value| ==> b.items.value[i].price.Some? ==> b.items.value[i].price.value >= 0.0)
          && (forall k :: k in menuMap ==> PriceOrZero(menuMap[k]) >= 0.0)
          ==> o.total >= 0.0)
  {
    var o := NewOrder(b, menuMap, id, now);
    SanitizePhoneIdempotent(b.customer.phone, PHONE_KEEP);
    if (forall i :: 0 <= i < |b.items.value| ==> b.items.value[i].price.Some? ==> b.items.value[i].price.value >= 0.0)
      && (forall k :: k in menuMap ==> PriceOrZero(menuMap[k]) >= 0.0)
    {
      forall i | 0 <= i < |o.items| ensures o.items[i].price >= 0.0 {
        var it := b.items.value[i];
        if it.price.None? && it.id in menuMap {
          assert PriceOrZero(menuMap[it.id]) >= 0.0;
        }
      }
      ItemsTotalBounds(o.items);
    }
  }

  /** The orders newest first, a copy; equal times keep the stored order. */
  function NewestFirst(orders: seq<Order>): seq<Order>
  {
    SortDesc(orders, Created)
  }

  lemma NewestFirstMeans(orders: seq<Order>)
    ensures var r := NewestFirst(orders);
      && multiset(r) == multiset(orders)
      && (forall i, j :: 0 <= i < j < |r| ==> r[i].createdAt >= r[j].createdAt)
      && (forall k :: WithKey(r, Created, k) == WithKey(orders, Created, k))
  {
    SortDescProps(orders, Created);
  }

  /** The outcome of the PATCH checks, in the order the handler makes them. */
  datatype PatchCheck = Forbidden | BadStatus | NoOrder | Apply(k: nat)

  function CheckPatch(orders: seq<Order>, authorized: bool, id: string, status: string): (c: PatchCheck)
    ensures c == Forbidden <==> !authorized
    ensures c == BadStatus <==> authorized && !IsKnown(status)
    ensures c == NoOrder <==> authorized && IsKnown(status) && forall j :: 0 <= j < |orders| ==> orders[j].id != id
    ensures c.Apply? ==> c.k < |orders| && orders[c.k].id == id && forall j :: 0 <= j < c.k ==> orders[j].id != id
  {
    if !authorized then Forbidden
    else if !IsKnown(status) then BadStatus
    else match FindIndex(orders, (o: Order) => o.id == id)
      case None => NoOrder
      case Some(k) => Apply(k)
  }

  /** The server checks only that the status is one of the five: a
      delivered order can be set back to PLACED, a move no dashboard offers. */
  lemma PatchIgnoresLifecycle(orders: seq<Order>, k: nat)
    requires k < |orders| && orders[k].status == DELIVERED
    requires forall j :: 0 <= j < k ==> orders[j].id != orders[k].id
    ensures CheckPatch(orders, true, orders[k].id, PLACED) == Apply(k)
    ensures PLACED !in NextStatuses(orders[k].status)
  {
    assert IsKnown(PLACED);
  }

  class Server {
    /** The orders in memory, in the order they were placed. */
    var orders: seq<Order>
    /** The menu file as loaded at start. */
    const menuData: seq<Dish>
    const menuMap: map<string, Dish>
    /** process.env.ADMIN_KEY, "" when unset. */
    const adminKey: string

    constructor (menuData: seq<Dish>, stored: seq<Order>, adminKey: string)
      ensures this.menuData == menuData && menuMap == MenuMap(menuData)
      ensures orders == stored && this.adminKey == adminKey
    {
      this.menuData := menuData;
      menuMap := MenuMap(menuData);
      orders := stored;
      this.adminKey := adminKey;
    }

    /** GET /api/menu: the veg dishes, in menu order. */
    method GetMenu() returns (r: seq<Dish>)
      ensures IsSubseq(r, menuData)
      ensures forall i :: 0 <= i < |r| ==> r[i].veg
      ensures forall i :: 0 <= i < |menuData| && menuData[i].veg ==> multiset(r)[menuData[i]] == multiset(menuData)[menuData[i]]
    {
      r := OnlyVeg(menuData);
      OnlyVegMeans(menuData);
    }

    /** GET /api/orders: refused without the key, otherwise every order,
        newest first, orders created at the same time in their stored order;
        the stored list keeps its order. */
    method GetOrders(key: string) returns (r: Reply<seq<Order>>)
      ensures !Authorized(adminKey, key) ==> r == Fail(403, UNAUTHORIZED)
      ensures Authorized(adminKey, key) ==>
        && r.Ok?
        && multiset(r.value) == multiset(orders)
        && (forall i, j :: 0 <= i < j < |r.value| ==> r.value[i].createdAt >= r.value[j].createdAt)
        && (forall k :: WithKey(r.value, Created, k) == WithKey(orders, Created, k))
    {
      if adminKey == "" || key != adminKey {
        return Fail(403, UNAUTHORIZED);
      }
      NewestFirstMeans(orders);
      r := Ok(NewestFirst(orders));
    }

    /** GET /api/orders/:id: the first order with that id. */
    method GetOrder(key: string, id: string) returns (r: Reply<Order>)
      ensures !Authorized(adminKey, key) ==> r == Fail(403, UNAUTHORIZED)
      ensures Authorized(adminKey, key) && (forall j :: 0 <= j < |orders| ==> orders[j].id != id) ==>
        r == Fail(404, ORDER_NOT_FOUND)
      ensures Authorized(adminKey, key) && (exists j :: 0 <= j < |orders| && orders[j].id == id) ==>
        && r.Ok?
        && exists k :: 0 <= k < |orders| && r.value == orders[k] && orders[k].id == id
                       && forall j :: 0 <= j < k ==> orders[j].id != id
      ensures r.Ok? ==> r.value in orders && r.value.id == id
    {
      if adminKey == "" || key != adminKey {
        return Fail(403, UNAUTHORIZED);
      }
      var found := FindIndex(orders, (o: Order) => o.id == id);
      if found.None? {
        return Fail(404, ORDER_NOT_FOUND);
      }
      r := Ok(orders[found.value]);
    }

    /** PATCH /api/orders/:id/status; `written` is whether the orders file
        could be written. Only the status of the first order with that id
        changes, and it stays changed in memory when the write fails. */
    method PatchStatus(key: string, id: string, status: string, written: bool) returns (r: Reply<Order>)
      modifies this`orders
      ensures var c := CheckPatch(old(orders), Authorized(adminKey, key), id, status);
        && (c == Forbidden ==> r == Fail(403, UNAUTHORIZED) && orders == old(orders))
        && (c == BadStatus ==> r == Fail(400, INVALID_STATUS) && orders == old(orders))
        && (c == NoOrder ==> r == Fail(404, ORDER_NOT_FOUND) && orders == old(orders))
        && (c.Apply? ==>
              && orders == old(orders)[c.k := old(orders)[c.k].(status := status)]
              && (written ==> r == Ok(orders[c.k]))
              && (!written ==> r == Fail(500, STATUS_NOT_SAVED)))
    {
      var c := CheckPatch(orders, adminKey != "" && key == adminKey, id, status);
      match c
      case Forbidden =>
        r := Fail(403, UNAUTHORIZED);
      case BadStatus =>
        r := Fail(400, INVALID_STATUS);
      case NoOrder =>
        r := Fail(404, ORDER_NOT_FOUND);
      case Apply(k) =>
        orders := orders[k := orders[k].(status := status)];
        if !written {
          r := Fail(500, STATUS_NOT_SAVED);
        } else {
          r := Ok(orders[k]);
        }
    }

    /** POST /api/order with a fresh id, the current time and whether the
        orders file could be written. A refused body changes nothing; an
        accepted one is appended even when the write fails. */
    method PostOrder(b: OrderBody, newId: string, now: int, written: bool) returns (r: Reply<Order>)
      modifies this`orders
      ensures BodyError(b).Some? ==> r == Fail(400, BodyError(b).value) && orders == old(orders)
      ensures BodyError(b).None? ==>
        && orders == old(orders) + [NewOrder(b, menuMap, newId, now)]
        && (written ==> r == Ok(NewOrder(b, menuMap, newId, now)))
        && (!written ==> r == Fail(500, ORDER_NOT_SAVED))
    {
      var e := BodyError(b);
      if e.Some? {
        return Fail(400, e.value);
      }
      var order := NewOrder(b, menuMap, newId, now);
      orders := orders + [order];
      if !written {
        return Fail(500, ORDER_NOT_SAVED);
      }
      r := Ok(order);
    }
  }
}
