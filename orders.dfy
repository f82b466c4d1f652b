/** Orders (js/orders.js): placing an order from the cart, the customer's order
 *  history, the status workflow and its labels. The cart's line items are the
 *  order lines the stock export reads; the cart total, the clock, the random
 *  suffix of the order number and the signed-in user are parameters. */
module Orders {
  import opened Common
  import opened InventoryRecords
  import opened Ingredients
  import opened Recipes

  datatype CustomerInfo = CustomerInfo(name: string, phone: string, address: string)

  datatype Order = Order(
    id: string,
    userId: string,
    customerName: string,
    phone: string,
    address: string,
    deliveryMethod: string,
    paymentMethod: string,
    items: seq<OrderLine>,
    subtotal: int,
    total: int,
    status: string,
    createdAt: string,
    updatedAt: Option<string>,
    cancelledAt: Option<string>)

  datatype OrderError =
    | LoginRequired
    | CartEmpty
    | CustomerInfoRequired
    | AddressRequired
    | OrderNotFound
    | AlreadyCompleted
    | AlreadyCancelled

  /** The six status codes, in workflow order. */
  const StatusCodes: seq<string> := ["pending", "confirmed", "preparing", "ready", "completed", "cancelled"]

  // ------------------------------------------------------------------
  // Listing
  // ------------------------------------------------------------------

  function ByUser(userId: string): Order -> bool
  {
    (o: Order) => o.userId == userId
  }

  function CreatedKey(timeOf: string -> int): Order -> int
  {
    (o: Order) => timeOf(o.createdAt)
  }

  /** getUserOrders: [] when signed out, else exactly that user's orders,
   *  newest first. */
  function GetUserOrders(orders: seq<Order>, user: Option<string>, timeOf: string -> int): (r: seq<Order>)
    ensures user.None? ==> r == []
    ensures user.Some? ==> forall o :: o in r <==> o in orders && o.userId == user.value
    ensures user.Some? ==> multiset(r) == multiset(Filter(orders, ByUser(user.value)))
    ensures SortedDesc(r, CreatedKey(timeOf))
  {
    match user
    case None => []
    case Some(u) =>
      var mine := Filter(orders, ByUser(u));
      var r := SortDesc(mine, CreatedKey(timeOf));
      forall o
        ensures o in r <==> o in mine
      {
        assert o in r <==> o in multiset(r);
        assert o in mine <==> o in multiset(mine);
      }
      r
  }

  // ------------------------------------------------------------------
  // Order numbers
  // ------------------------------------------------------------------

  /** A number written with at least `width` digits, zeros in front. */
  function Padded(n: nat, width: nat): string
  {
    PadStart(NatToString(n), width, '0')
  }

  /** The date part `YYYY-MM-DD` of an ISO timestamp. */
  function IsoDate(year: nat, month: nat, day: nat): string
  {
    Padded(year, 4) + "-" + Padded(month, 2) + "-" + Padded(day, 2)
  }

  function NotDash(c: char): bool
  {
    c != '-'
  }

  /** generateOrderId: `ORD-`, the first ten characters of the ISO timestamp
   *  without their dashes, `-`, and the random number padded to three digits.
   *  `random` is `Math.floor(Math.random() * 1000)`. */
  function GenerateOrderId(iso: string, random: nat): (id: string)
    requires random < 1000
    ensures |id| >= 8 && id[..4] == "ORD-" && id[|id| - 4] == '-'
    ensures AllDigits(id[|id| - 3..]) && DigitsValue(id[|id| - 3..]) == random
  {
    var date := if |iso| >= 10 then iso[..10] else iso;
    var n := Padded(random, 3);
    PowersOfTen();
    PaddedShape(random, 3);
    var id := "ORD-" + Filter(date, NotDash) + "-" + n;
    assert id[|id| - 3..] == n;
    id
  }

  lemma PaddedShape(n: nat, width: nat)
    requires 1 <= width && n < Pow10(width)
    ensures |Padded(n, width)| == width
    ensures AllDigits(Padded(n, width)) && DigitsValue(Padded(n, width)) == n
  {
    NatToStringLength(n, width);
    PaddedNumberRoundTrip(n, width);
  }

  lemma DigitsKeptByNotDash(s: string)
    requires AllDigits(s)
    ensures Filter(s, NotDash) == s
  {
  }

  lemma PowersOfTen()
    ensures Pow10(2) == 100 && Pow10(3) == 1000 && Pow10(4) == 10000
  {
    assert Pow10(1) == 10;
  }

  /** Dropping the dashes of `Y-M-D` leaves the three digit runs side by side. */
  lemma DashesDropped(y: string, m: string, d: string)
    requires AllDigits(y) && AllDigits(m) && AllDigits(d)
    ensures Filter(y + "-" + m + "-" + d, NotDash) == y + m + d
  {
    var dash: string := "-";
    var a := y + dash;
    var b := a + m;
    var c := b + dash;
    assert Filter(dash, NotDash) == [];
    FilterAppend(y, dash, NotDash);
    DigitsKeptByNotDash(y);
    assert Filter(a, NotDash) == y;
    FilterAppend(a, m, NotDash);
    DigitsKeptByNotDash(m);
    assert Filter(b, NotDash) == y + m;
    FilterAppend(b, dash, NotDash);
    assert Filter(c, NotDash) == y + m;
    FilterAppend(c, d, NotDash);
    DigitsKeptByNotDash(d);
    assert c + d == y + "-" + m + "-" + d;
  }

  /** Where the parts of `ORD-` date `-` number sit. */
  lemma IdLayout(y: string, m: string, d: string, n: string)
    requires |y| == 4 && |m| == 2 && |d| == 2 && |n| == 3
    ensures var id := "ORD-" + (y + m + d) + "-" + n;
            |id| == 16 && id[..4] == "ORD-" && id[12] == '-' &&
            id[4..8] == y && id[8..10] == m && id[10..12] == d && id[13..] == n
  {
  }

  /** An order number has the form ORD-YYYYMMDD-NNN, and the date and the
   *  number can be read back from it. */
  lemma OrderIdRoundTrip(iso: string, year: nat, month: nat, day: nat, random: nat)
    requires year < 10000 && month < 100 && day < 100 && random < 1000
    requires |iso| >= 10 && iso[..10] == IsoDate(year, month, day)
    ensures var id := GenerateOrderId(iso, random);
            |id| == 16 && id[..4] == "ORD-" && id[12] == '-' &&
            AllDigits(id[4..8]) && AllDigits(id[8..10]) && AllDigits(id[10..12]) && AllDigits(id[13..]) &&
            DigitsValue(id[4..8]) == year && DigitsValue(id[8..10]) == month &&
            DigitsValue(id[10..12]) == day && DigitsValue(id[13..]) == random
  {
    var y := Padded(year, 4);
    var m := Padded(month, 2);
    var d := Padded(day, 2);
    var n := Padded(random, 3);
    PowersOfTen();
    PaddedShape(year, 4);
    PaddedShape(month, 2);
    PaddedShape(day, 2);
    PaddedShape(random, 3);
    DashesDropped(y, m, d);
    IdLayout(y, m, d, n);
  }

  // ------------------------------------------------------------------
  // Status labels
  // ------------------------------------------------------------------

  /** getStatusText: the Vietnamese label of a status code; any other code is
   *  shown as it is. */
  function StatusText(status: string): (t: string)
    ensures status !in StatusCodes ==> t == status
  {
    if status == "pending" then "Chờ xác nhận"
    else if status == "confirmed" then "Đã xác nhận"
    else if status == "preparing" then "Đang pha chế"
    else if status == "ready" then "Sẵn sàng"
    else if status == "completed" then "Hoàn thành"
    else if status == "cancelled" then "Đã hủy"
    else status
  }

  /** Every known code gets a label of its own: no two codes share one, and no
   *  label is a code. */
  lemma StatusTextsDistinct()
    ensures forall i, j :: 0 <= i < j < |StatusCodes| ==> StatusText(StatusCodes[i]) != StatusText(StatusCodes[j])
    ensures forall i :: 0 <= i < |StatusCodes| ==> StatusText(StatusCodes[i]) !in StatusCodes
  {
  }

  /** getStatusBadgeClass: the badge colour of a status; unknown codes get the
   *  primary colour, as "ready" does. */
  function StatusBadgeClass(status: string): (c: string)
    ensures c in ["badge-warning", "badge-info", "badge-primary", "badge-success", "badge-error"]
    ensures status !in StatusCodes ==> c == "badge-primary"
  {
    if status == "pending" then "badge-warning"
    else if status == "confirmed" || status == "preparing" then "badge-info"
    else if status == "completed" then "badge-success"
    else if status == "cancelled" then "badge-error"
    else "badge-primary"
  }

  // ------------------------------------------------------------------
  // Status changes
  // ------------------------------------------------------------------

  function OrderIndex(orders: seq<Order>, id: string): (r: int)
    ensures -1 <= r < |orders|
    ensures r == -1 <==> forall j :: 0 <= j < |orders| ==> orders[j].id != id
    ensures 0 <= r ==> orders[r].id == id && forall j :: 0 <= j < r ==> orders[j].id != id
  {
    FirstIndex(orders, (o: Order) => o.id == id)
  }

  /** updateOrderStatus on the list: any status at all on the first order with
   *  that id, stamped with the time; not found otherwise. */
  function StatusUpdated(orders: seq<Order>, id: string, status: string, now: string)
    : (o: (Result<(), OrderError>, seq<Order>))
    ensures o.0.Err? <==> OrderIndex(orders, id) < 0
    ensures o.0.Err? ==> o.0.error == OrderNotFound && o.1 == orders
    ensures o.0.Ok? ==>
              var i := OrderIndex(orders, id);
              |o.1| == |orders| && o.1[i].status == status &&
              o.1[i] == orders[i].(status := status, updatedAt := Some(now)) &&
              forall j :: 0 <= j < |orders| && j != i ==> o.1[j] == orders[j]
  {
    var i := OrderIndex(orders, id);
    if i < 0 then (Err(OrderNotFound), orders)
    else (Ok(()), orders[i := orders[i].(status := status, updatedAt := Some(now))])
  }

  /** cancelOrder on the list: refused for an unknown, completed or already
   *  cancelled order; otherwise that order alone becomes cancelled. */
  function Cancelled(orders: seq<Order>, id: string, now: string): (o: (Result<(), OrderError>, seq<Order>))
    ensures OrderIndex(orders, id) < 0 ==> o.0 == Err(OrderNotFound)
    ensures OrderIndex(orders, id) >= 0 && orders[OrderIndex(orders, id)].status == "completed" ==>
              o.0 == Err(AlreadyCompleted)
    ensures OrderIndex(orders, id) >= 0 && orders[OrderIndex(orders, id)].status == "cancelled" ==>
              o.0 == Err(AlreadyCancelled)
    ensures o.0.Ok? <==> OrderIndex(orders, id) >= 0 &&
                         orders[OrderIndex(orders, id)].status !in {"completed", "cancelled"}
    ensures o.0.Err? ==> o.1 == orders
    ensures o.0.Ok? ==>
              var i := OrderIndex(orders, id);
              o.1 == orders[i := orders[i].(status := "cancelled", updatedAt := Some(now), cancelledAt := Some(now))]
  {
    var i := OrderIndex(orders, id);
    if i < 0 then (Err(OrderNotFound), orders)
    else if orders[i].status == "completed" then (Err(AlreadyCompleted), orders)
    else if orders[i].status == "cancelled" then (Err(AlreadyCancelled), orders)
    else (Ok(()), orders[i := orders[i].(status := "cancelled", updatedAt := Some(now), cancelledAt := Some(now))])
  }

  /** Cancelling is final: a second cancel of the same order is refused and
   *  changes nothing. */
  lemma CancelTwiceRefused(orders: seq<Order>, id: string, now: string, later: string)
    requires Cancelled(orders, id, now).0.Ok?
    ensures var once := Cancelled(orders, id, now).1;
            Cancelled(once, id, later) == (Err(AlreadyCancelled), once)
  {
    var once := Cancelled(orders, id, now).1;
    assert forall j :: 0 <= j < |orders| ==> once[j].id == orders[j].id;
    assert OrderIndex(once, id) == OrderIndex(orders, id);
  }

  // ------------------------------------------------------------------
  // Placing an order
  // ------------------------------------------------------------------

  /** createOrder's checks, in order: signed in, a non-empty cart, a name and a
   *  phone, and an address when the order is to be delivered. */
  function OrderRejection(user: Option<string>, cart: seq<OrderLine>, info: CustomerInfo, deliveryMethod: string)
    : (e: Option<OrderError>)
    ensures user.None? ==> e == Some(LoginRequired)
    ensures user.Some? && cart == [] ==> e == Some(CartEmpty)
    ensures user.Some? && cart != [] && (info.name == "" || info.phone == "") ==> e == Some(CustomerInfoRequired)
    ensures (user.Some? && cart != [] && info.name != "" && info.phone != "" &&
             deliveryMethod == "takeaway" && info.address == "") ==> e == Some(AddressRequired)
    ensures e.None? <==> user.Some? && cart != [] && info.name != "" && info.phone != "" &&
                         (deliveryMethod == "takeaway" ==> info.address != "")
  {
    if user.None? then Some(LoginRequired)
    else if |cart| == 0 then Some(CartEmpty)
    else if info.name == "" || info.phone == "" then Some(CustomerInfoRequired)
    else if deliveryMethod == "takeaway" && info.address == "" then Some(AddressRequired)
    else None
  }

  /** The order createOrder records: pending, a copy of the cart, and the cart
   *  total as both subtotal and total. */
  function NewOrder(id: string, userId: string, info: CustomerInfo, deliveryMethod: string, paymentMethod: string,
                    cart: seq<OrderLine>, cartTotal: int, createdAt: string): (o: Order)
    ensures o.status == "pending" && o.items == cart && o.subtotal == cartTotal && o.total == cartTotal
    ensures o.id == id && o.userId == userId && o.createdAt == createdAt
    ensures o.updatedAt.None? && o.cancelledAt.None?
  {
    Order(id, userId, info.name, info.phone, info.address, deliveryMethod, paymentMethod, cart,
          cartTotal, cartTotal, "pending", createdAt, None, None)
  }

  class OrderDesk {
    var orders: seq<Order>
    var cart: seq<OrderLine>

    constructor (seedOrders: seq<Order>, seedCart: seq<OrderLine>)
      ensures orders == seedOrders && cart == seedCart
    {
      orders := seedOrders;
      cart := seedCart;
    }

    /** createOrder at ISO time `nowIso`. A rejected order changes nothing. An
     *  accepted one is appended, the stock is exported for the cart (a failed
     *  export does not undo the order), and the cart is emptied. `cartTotal`
     *  is the cart's total and `random` the random part of the order number. */
    method CreateOrder(user: Option<string>, info: CustomerInfo, deliveryMethod: string, paymentMethod: string,
                       cartTotal: int, nowIso: string, random: nat, book: RecipeBook, ledger: IngredientLedger)
      returns (r: Result<Order, OrderError>, exportReport: Option<OrderExportReport>)
      requires random < 1000
      modifies this, ledger
      ensures r.Err? <==> OrderRejection(user, old(cart), info, deliveryMethod).Some?
      ensures r.Err? ==> r.error == OrderRejection(user, old(cart), info, deliveryMethod).value &&
                         orders == old(orders) && cart == old(cart) && ledger.items == old(ledger.items) &&
                         exportReport.None?
      ensures r.Ok? ==>
                r.value == NewOrder(GenerateOrderId(nowIso, random), user.value, info, deliveryMethod, paymentMethod,
                                    old(cart), cartTotal, nowIso) &&
                orders == old(orders) + [r.value] && cart == [] &&
                (exportReport.Some? && (exportReport.value, ledger.items) == ExportOrder(book.recipes, old(ledger.items), old(cart)))
    {
      var rejection := OrderRejection(user, cart, info, deliveryMethod);
      if rejection.Some? {
        return Err(rejection.value), None;
      }
      var order := NewOrder(GenerateOrderId(nowIso, random), user.value, info, deliveryMethod, paymentMethod,
                            cart, cartTotal, nowIso);
      orders := orders + [order];
      var report := book.AutoExportForOrder(ledger, cart);
      cart := [];
      r := Ok(order);
      exportReport := Some(report);
    }

    /** updateOrderStatus: no transition rule at all. */
    method UpdateOrderStatus(id: string, status: string, now: string) returns (r: Result<(), OrderError>)
      modifies this
      ensures (r, orders) == StatusUpdated(old(orders), id, status, now)
      ensures cart == old(cart)
    {
      var i := OrderIndex(orders, id);
      if i < 0 {
        return Err(OrderNotFound);
      }
      orders := orders[i := orders[i].(status := status, updatedAt := Some(now))];
      r := Ok(());
    }

    /** cancelOrder: the status change only; stock that was exported for the
     *  order is not given back. */
    method CancelOrder(id: string, now: string) returns (r: Result<(), OrderError>)
      modifies this
      ensures (r, orders) == Cancelled(old(orders), id, now)
      ensures cart == old(cart)
    {
      var i := OrderIndex(orders, id);
      if i < 0 {
        return Err(OrderNotFound);
      }
      if orders[i].status == "completed" {
        return Err(AlreadyCompleted);
      }
      if orders[i].status == "cancelled" {
        return Err(AlreadyCancelled);
      }
      orders := orders[i := orders[i].(status := "cancelled", updatedAt := Some(now), cancelledAt := Some(now))];
      r := Ok(());
    }
  }
}
