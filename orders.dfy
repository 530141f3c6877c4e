/** The order record as the server stores it and the dashboards receive it.
    Missing text fields are the empty string (the scripts read them through
    `x || ''` or `String(x ?? '')`); times are milliseconds since the epoch. */
module Orders {
  import opened Seqs

  datatype Customer = Customer(name: string, phone: string, address: string)

  datatype LineItem = LineItem(id: string, name: string, qty: int, price: real)

  datatype Order = Order(
    id: string,
    createdAt: int,
    updatedAt: Option<int>,
    customer: Customer,
    items: seq<LineItem>,
    total: real,
    paymentMethod: string,
    notes: string,
    status: string)

  /** `new Date(createdAt)` as the newest-first sorts compare it. */
  function Created(o: Order): real
  {
    o.createdAt as real
  }

  /** The names of an order's items, in order. */
  function ItemNames(o: Order): (r: seq<string>)
    ensures |r| == |o.items|
    ensures forall i :: 0 <= i < |r| ==> r[i] == o.items[i].name
  {
    seq(|o.items|, i requires 0 <= i < |o.items| => o.items[i].name)
  }

  /** The fields the dashboard search looks at: id, customer name, phone and
      address, then every item name. */
  function SearchFields(o: Order): (r: seq<string>)
    ensures |r| == 4 + |o.items|
    ensures r[0] == o.id && r[1] == o.customer.name && r[2] == o.customer.phone && r[3] == o.customer.address
    ensures forall i :: 0 <= i < |o.items| ==> r[4 + i] == o.items[i].name
  {
    [o.id, o.customer.name, o.customer.phone, o.customer.address] + ItemNames(o)
  }
}
