/**
 * The customer's order history (Orders.jsx): the orders flattened into one
 * row per item, most recent first, the address line, the prices shown and
 * the details toggle.
 */
module Orders {
  import opened Wrappers
  import opened Text
  import opened Seqs
  import opened Catalog
  import opened PlaceOrder

  datatype Address = Address(
    firstName: String, lastName: String, street: String, city: String,
    state: String, zipcode: String, country: String, phone: String)

  /** `formatAddress`: nothing without an address; else the non-empty parts joined by ", ", then the phone. */
  function FormatAddress(a: Option<Address>): (r: String)
    ensures a.None? ==> r == ""
  {
    match a
    case None => ""
    case Some(x) =>
      var name := JoinNonEmpty([x.firstName, x.lastName], " ");
      var parts := JoinNonEmpty([name, x.street, x.city, x.state, x.zipcode, x.country], ", ");
      parts + (if x.phone != "" then " | Phone: " + x.phone else "")
  }

  /** With every part given, nothing is dropped: the name, then each part, then the phone. */
  lemma FormatFullAddress(x: Address)
    requires x.firstName != "" && x.lastName != "" && x.street != "" && x.city != ""
    requires x.state != "" && x.zipcode != "" && x.country != "" && x.phone != ""
    ensures FormatAddress(Some(x)) ==
      Join([x.firstName + " " + x.lastName, x.street, x.city, x.state, x.zipcode, x.country], ", ") + " | Phone: " + x.phone
  {
    NonEmptyAll([x.firstName, x.lastName]);
    assert [x.firstName, x.lastName][1..] == [x.lastName];
    assert Join([x.firstName, x.lastName], " ") == x.firstName + " " + x.lastName;
    var name := JoinNonEmpty([x.firstName, x.lastName], " ");
    assert name == x.firstName + " " + x.lastName;
    var parts := [name, x.street, x.city, x.state, x.zipcode, x.country];
    NonEmptyAll(parts);
    assert JoinNonEmpty(parts, ", ") == Join(parts, ", ");
  }

  /** The line is empty exactly when every part of the address is. */
  lemma FormatBlankAddress(x: Address)
    ensures FormatAddress(Some(x)) == "" <==>
      x.firstName == "" && x.lastName == "" && x.street == "" && x.city == "" &&
      x.state == "" && x.zipcode == "" && x.country == "" && x.phone == ""
  {
    JoinNonEmptyBlank([x.firstName, x.lastName], " ");
    var name := JoinNonEmpty([x.firstName, x.lastName], " ");
    var parts := [name, x.street, x.city, x.state, x.zipcode, x.country];
    JoinNonEmptyBlank(parts, ", ");
    assert name == "" <==> x.firstName == "" && x.lastName == "" by {
      assert [x.firstName, x.lastName][0] == x.firstName && [x.firstName, x.lastName][1] == x.lastName;
    }
    assert JoinNonEmpty(parts, ", ") == "" <==>
      name == "" && x.street == "" && x.city == "" && x.state == "" && x.zipcode == "" && x.country == "" by {
      assert parts[0] == name && parts[1] == x.street && parts[2] == x.city;
      assert parts[3] == x.state && parts[4] == x.zipcode && parts[5] == x.country;
    }
    var suffix := if x.phone != "" then " | Phone: " + x.phone else "";
    assert suffix == "" <==> x.phone == "" by {
      if x.phone != "" {
        assert |suffix| > 0;
      }
    }
  }

  /** The phone only ever adds " | Phone: <phone>" at the end, and only when it is given. */
  lemma PhoneOnlyAppends(x: Address)
    ensures FormatAddress(Some(x)) ==
      FormatAddress(Some(x.(phone := ""))) + (if x.phone != "" then " | Phone: " + x.phone else "")
  {
  }

  /** Missing parts leave no stray separators. */
  lemma FormatPartialAddress()
    ensures FormatAddress(Some(Address("", "Lee", "", "Dhaka", "", "", "", ""))) == "Lee, Dhaka"
  {
    assert NonEmpty(["", "Lee"]) == ["Lee"];
    assert JoinNonEmpty(["", "Lee"], " ") == "Lee";
    var parts := ["Lee", "", "Dhaka", "", "", ""];
    assert NonEmpty(parts) == ["Lee", "Dhaka"];
  }

  /** An order as the server returns it. */
  datatype Order = Order(items: seq<OrderItem>, status: String, payment: bool, paymentMethod: String, date: int, address: Option<Address>)

  /** One row of the history: an item with its order's fields copied onto it. */
  datatype Row = Row(item: OrderItem, status: String, payment: bool, paymentMethod: String, date: int, address: Option<Address>)

  function RowOf(o: Order, item: OrderItem): Row {
    Row(item, o.status, o.payment, o.paymentMethod, o.date, o.address)
  }

  function OrderRows(o: Order, items: seq<OrderItem>): (r: seq<Row>)
    ensures |r| == |items|
    ensures forall j :: 0 <= j < |items| ==> r[j] == RowOf(o, items[j])
  {
    if items == [] then [] else OrderRows(o, items[..|items| - 1]) + [RowOf(o, items[|items| - 1])]
  }

  /** Every item of every order, order by order, in server order. */
  function Rows(orders: seq<Order>): seq<Row> {
    if orders == [] then []
    else Rows(orders[..|orders| - 1]) + OrderRows(orders[|orders| - 1], orders[|orders| - 1].items)
  }

  function ItemCount(orders: seq<Order>): nat {
    if orders == [] then 0 else ItemCount(orders[..|orders| - 1]) + |orders[|orders| - 1].items|
  }

  /** One row per item. */
  lemma {:induction false} RowsCount(orders: seq<Order>)
    ensures |Rows(orders)| == ItemCount(orders)
  {
    if orders != [] {
      RowsCount(orders[..|orders| - 1]);
    }
  }

  /** A row is exactly an item of some order, carrying that order's fields. */
  lemma {:induction false} RowsAt(orders: seq<Order>, row: Row)
    ensures row in Rows(orders) <==>
      exists i, j :: 0 <= i < |orders| && 0 <= j < |orders[i].items| && row == RowOf(orders[i], orders[i].items[j])
  {
    if orders != [] {
      var n := |orders| - 1;
      var init := orders[..n];
      RowsAt(init, row);
      var tail := OrderRows(orders[n], orders[n].items);
      assert Rows(orders) == Rows(init) + tail;
      if row in tail {
        var j :| 0 <= j < |tail| && tail[j] == row;
        assert 0 <= n < |orders| && 0 <= j < |orders[n].items|;
      }
      if row in Rows(init) {
        var i, j :| 0 <= i < |init| && 0 <= j < |init[i].items| && row == RowOf(init[i], init[i].items[j]);
        assert orders[i] == init[i];
      }
      if exists i, j :: 0 <= i < |orders| && 0 <= j < |orders[i].items| && row == RowOf(orders[i], orders[i].items[j]) {
        var i, j :| 0 <= i < |orders| && 0 <= j < |orders[i].items| && row == RowOf(orders[i], orders[i].items[j]);
        if i == n {
          assert tail[j] == row;
        } else {
          assert init[i] == orders[i];
        }
      }
    }
  }

  lemma RowsStep(orders: seq<Order>, i: nat)
    requires i < |orders|
    ensures Rows(orders[..i + 1]) == Rows(orders[..i]) + OrderRows(orders[i], orders[i].items)
  {
    assert orders[..i + 1][..i] == orders[..i];
  }

  /** `loadOrderData` on a successful reply: the nested `map`s that push each item, then `reverse()`. */
  method LoadOrderData(orders: seq<Order>) returns (orderData: seq<Row>)
    ensures orderData == Reverse(Rows(orders))
  {
    var allOrderItems: seq<Row> := [];
    var i := 0;
    while i < |orders|
      invariant 0 <= i <= |orders|
      invariant allOrderItems == Rows(orders[..i])
    {
      var order := orders[i];
      var j := 0;
      ghost var before := allOrderItems;
      while j < |order.items|
        invariant 0 <= j <= |order.items|
        invariant allOrderItems == before + OrderRows(order, order.items[..j])
      {
        assert order.items[..j + 1][..j] == order.items[..j];
        allOrderItems := allOrderItems + [RowOf(order, order.items[j])];
        j := j + 1;
      }
      assert order.items[..j] == order.items;
      RowsStep(orders, i);
      i := i + 1;
    }
    assert orders[..i] == orders;
    orderData := Reverse(allOrderItems);
  }

  /** The newest row comes first: the last item of the last order. */
  lemma NewestFirst(orders: seq<Order>)
    requires |orders| > 0 && |orders[|orders| - 1].items| > 0
    ensures var last := orders[|orders| - 1];
      Reverse(Rows(orders))[0] == RowOf(last, last.items[|last.items| - 1])
  {
  }

  /** `item.sizePrice ? item.sizePrice : item.price` */
  function PriceShown(item: OrderItem): (r: real)
    ensures item.sizePrice != 0.0 ==> r == item.sizePrice
    ensures item.sizePrice == 0.0 ==> r == item.product.price
  {
    if item.sizePrice != 0.0 then item.sizePrice else item.product.price
  }

  /** For an item the checkout built, the price shown is the unit price charged. */
  lemma PriceShownIsCharged(item: OrderItem)
    requires item.sizePrice == ResolveUnitPrice(item.product, item.size)
    ensures PriceShown(item) == item.sizePrice
  {
  }

  /** "Total Amount" as written: the base price times the quantity. */
  function TotalShown(item: OrderItem): real {
    item.product.price * item.quantity as real
  }

  /** As written the total ignores the size price: 2 × a size priced 45 on a base of 30 shows 60, not 90. */
  lemma TotalShownIgnoresSizePrice(p: Product)
    requires p.price == 30.0
    ensures var item := OrderItem(p, "1kg", 2, 45.0);
      PriceShown(item) == 45.0 && TotalShown(item) == 60.0 && item.sizePrice * item.quantity as real == 90.0
  {
  }

  /** The total as evidently intended: the price shown times the quantity. */
  function IntendedTotal(item: OrderItem): real {
    PriceShown(item) * item.quantity as real
  }

  /** The intended totals of an order's items add up to what the checkout charged for them. */
  lemma {:induction false} IntendedTotalsAreCharged(items: seq<OrderItem>)
    requires forall k :: 0 <= k < |items| ==> items[k].sizePrice == ResolveUnitPrice(items[k].product, items[k].size)
    ensures SumIntended(items) == OrderItemsTotal(items)
  {
    if items != [] {
      IntendedTotalsAreCharged(items[..|items| - 1]);
      PriceShownIsCharged(items[|items| - 1]);
    }
  }

  function SumIntended(items: seq<OrderItem>): real {
    if items == [] then 0.0 else SumIntended(items[..|items| - 1]) + IntendedTotal(items[|items| - 1])
  }

  /** "Track Order" / "Hide Details": the row's details open, or close when already open. */
  function ToggleSelected(selected: Option<nat>, index: nat): (r: Option<nat>)
    ensures r == Some(index) <==> selected != Some(index)
    ensures r != Some(index) ==> r.None?
  {
    if selected == Some(index) then None else Some(index)
  }

  /** Pressing the same row twice opens and closes it again, whatever was open before. */
  lemma ToggleTwice(selected: Option<nat>, index: nat)
    ensures ToggleSelected(ToggleSelected(selected, index), index) == (if selected == Some(index) then Some(index) else None)
  {
  }
}
