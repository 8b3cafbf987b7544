/** The admin console: manual stock adjustment (read, clamp at zero, write
    one row), the pending-payment order list, marking an order paid, and the
    stock badge on each inventory card. The two remote tables are fields of
    the console; whether a query or a write fails is an input. */
module Admin {
  import opened Common

  datatype ProductRow = ProductRow(sku: string, name: string, stockQty: int)

  /** An `orders` row; `createdAt` is the timestamp as a number. */
  datatype OrderRow = OrderRow(id: int, orderCode: string, status: string, createdAt: int, customerEmail: string, customerName: string)

  const PendingPayment := "pending_payment"
  const Paid := "paid"

  // ---------------------------------------------------------------------
  // Stock badge

  datatype BadgeColour = Green | Orange | Red

  datatype Badge = Badge(text: string, colour: BadgeColour)

  /** The inventory card's badge: green above 10, orange from 1 to 10, red otherwise; the
      text says "In Stock" exactly when the count is positive. */
  function StockBadge(stockQty: int): (b: Badge)
    ensures b.text == "In Stock" <==> stockQty > 0
    ensures b.text == "In Stock" || b.text == "Sold Out"
    ensures b.colour == Green <==> stockQty > 10
    ensures b.colour == Orange <==> 1 <= stockQty <= 10
    ensures b.colour == Red <==> stockQty <= 0
    ensures b.text == "In Stock" <==> b.colour != Red
  {
    var colour := if stockQty > 10 then Green else if stockQty > 0 then Orange else Red;
    Badge(if stockQty > 0 then "In Stock" else "Sold Out", colour)
  }

  // ---------------------------------------------------------------------
  // Stock rows

  /** The rows whose SKU is `sku`. */
  function MatchingRows(rows: seq<ProductRow>, sku: string): nat
  {
    if rows == [] then 0
    else MatchingRows(rows[..|rows| - 1], sku) + (if rows[|rows| - 1].sku == sku then 1 else 0)
  }

  /** The stock of the first row with `sku` (the one `.single()` returns when
      there is exactly one). */
  function StockOf(rows: seq<ProductRow>, sku: string): (q: int)
    requires MatchingRows(rows, sku) > 0
  {
    if rows[0].sku == sku then rows[0].stockQty
    else
      MatchingRowsTail(rows, sku);
      StockOf(rows[1..], sku)
  }

  lemma {:induction false} MatchingRowsTail(rows: seq<ProductRow>, sku: string)
    requires rows != []
    ensures MatchingRows(rows, sku) == (if rows[0].sku == sku then 1 else 0) + MatchingRows(rows[1..], sku)
  {
    if |rows| > 1 {
      assert rows[1..][..|rows[1..]| - 1] == rows[..|rows| - 1][1..];
      MatchingRowsTail(rows[..|rows| - 1], sku);
    } else {
      assert rows[..0] == [] && rows[1..] == [];
    }
  }

  /** `update({ stock_qty }).eq('sku', sku)`: every row with that SKU gets the
      new quantity; the others are left as they were. */
  function SetStock(rows: seq<ProductRow>, sku: string, qty: int): (r: seq<ProductRow>)
    ensures |r| == |rows|
    ensures forall i :: 0 <= i < |rows| ==>
      && r[i].sku == rows[i].sku && r[i].name == rows[i].name
      && r[i].stockQty == (if rows[i].sku == sku then qty else rows[i].stockQty)
  {
    seq(|rows|, i requires 0 <= i < |rows| => if rows[i].sku == sku then rows[i].(stockQty := qty) else rows[i])
  }

  /** Writing a quantity for a SKU and reading it back gives that quantity;
      the number of rows with the SKU and the stock of every other SKU stay as
      they were. Whatever the table held for the SKU before the write is
      overwritten, so a write computed from an earlier read discards any
      change made since. */
  lemma {:induction false} SetStockReadBack(rows: seq<ProductRow>, sku: string, qty: int, other: string)
    ensures MatchingRows(SetStock(rows, sku, qty), sku) == MatchingRows(rows, sku)
    ensures MatchingRows(SetStock(rows, sku, qty), other) == MatchingRows(rows, other)
    ensures MatchingRows(rows, sku) > 0 ==> StockOf(SetStock(rows, sku, qty), sku) == qty
    ensures other != sku && MatchingRows(rows, other) > 0 ==>
      StockOf(SetStock(rows, sku, qty), other) == StockOf(rows, other)
  {
    var after := SetStock(rows, sku, qty);
    if rows != [] {
      assert after[..|after| - 1] == SetStock(rows[..|rows| - 1], sku, qty);
      assert after[1..] == SetStock(rows[1..], sku, qty);
      SetStockReadBack(rows[..|rows| - 1], sku, qty, other);
      SetStockReadBack(rows[1..], sku, qty, other);
      MatchingRowsTail(rows, sku);
      MatchingRowsTail(after, sku);
      MatchingRowsTail(rows, other);
      MatchingRowsTail(after, other);
    }
  }

  // ---------------------------------------------------------------------
  // Pending orders: `.eq('status', 'pending_payment').order('created_at', { ascending: false })`

  function FilterPending(rows: seq<OrderRow>): (r: seq<OrderRow>)
    ensures forall k :: 0 <= k < |r| ==> r[k].status == PendingPayment
  {
    if rows == [] then []
    else FilterPending(rows[..|rows| - 1]) + (if rows[|rows| - 1].status == PendingPayment then [rows[|rows| - 1]] else [])
  }

  lemma {:induction false} FilterPendingKeepsPending(rows: seq<OrderRow>, i: nat)
    requires i < |rows| && rows[i].status == PendingPayment
    ensures rows[i] in FilterPending(rows)
  {
    if i < |rows| - 1 {
      assert rows[..|rows| - 1][i] == rows[i];
      FilterPendingKeepsPending(rows[..|rows| - 1], i);
    }
  }

  lemma {:induction false} FilterPendingSubset(rows: seq<OrderRow>)
    ensures forall o :: o in FilterPending(rows) ==> o in rows
  {
    if rows != [] {
      FilterPendingSubset(rows[..|rows| - 1]);
    }
  }

  predicate NewestFirst(rows: seq<OrderRow>)
  {
    forall i, j :: 0 <= i < j < |rows| ==> rows[i].createdAt >= rows[j].createdAt
  }

  /** Place `o` in front of the first row that is not newer. */
  function InsertByNewest(o: OrderRow, rows: seq<OrderRow>): (r: seq<OrderRow>)
    requires NewestFirst(rows)
    ensures NewestFirst(r)
    ensures multiset(r) == multiset(rows) + multiset{o}
    ensures |r| == |rows| + 1
    ensures r[0] == o || (rows != [] && r[0] == rows[0])
  {
    if rows == [] || o.createdAt >= rows[0].createdAt then
      ConsNewestFirst(o, rows);
      [o] + rows
    else
      var rest := InsertByNewest(o, rows[1..]);
      InsertBehindHead(o, rows, rest);
      [rows[0]] + rest
  }

  /** When `o` is older than the head, inserting it into the tail and putting
      the head back in front gives a newest-first list with `o` added. */
  lemma InsertBehindHead(o: OrderRow, rows: seq<OrderRow>, rest: seq<OrderRow>)
    requires rows != [] && NewestFirst(rows) && o.createdAt < rows[0].createdAt
    requires NewestFirst(rest) && multiset(rest) == multiset(rows[1..]) + multiset{o}
    requires |rest| == |rows| && (rest[0] == o || (|rows| > 1 && rest[0] == rows[1]))
    ensures NewestFirst([rows[0]] + rest)
    ensures multiset([rows[0]] + rest) == multiset(rows) + multiset{o}
  {
    assert rows == [rows[0]] + rows[1..];
    if rest[0] != o {
      assert rows[0].createdAt >= rows[1].createdAt;
    }
    ConsNewestFirst(rows[0], rest);
  }

  /** A row no older than the head of a newest-first list can go in front. */
  lemma ConsNewestFirst(x: OrderRow, rows: seq<OrderRow>)
    requires NewestFirst(rows) && (rows == [] || x.createdAt >= rows[0].createdAt)
    ensures NewestFirst([x] + rows)
  {
    var r := [x] + rows;
    forall i, j | 0 <= i < j < |r| ensures r[i].createdAt >= r[j].createdAt {
      if i == 0 {
        assert r[j] == rows[j - 1];
      } else {
        assert r[i] == rows[i - 1] && r[j] == rows[j - 1];
      }
    }
  }

  function SortNewestFirst(rows: seq<OrderRow>): (r: seq<OrderRow>)
    ensures NewestFirst(r)
    ensures multiset(r) == multiset(rows)
  {
    if rows == [] then []
    else
      assert rows == [rows[0]] + rows[1..];
      InsertByNewest(rows[0], SortNewestFirst(rows[1..]))
  }

  /** The list fetchOrders stores: the pending-payment rows, newest first,
      and nothing else. */
  function PendingOrders(rows: seq<OrderRow>): (r: seq<OrderRow>)
    ensures NewestFirst(r)
    ensures multiset(r) == multiset(FilterPending(rows))
    ensures forall k :: 0 <= k < |r| ==> r[k].status == PendingPayment
  {
    var pending := FilterPending(rows);
    var sorted := SortNewestFirst(pending);
    assert forall k :: 0 <= k < |sorted| ==> sorted[k] in multiset(pending);
    sorted
  }

  /** The pending list holds exactly the pending-payment orders, each once
      for every time the table holds it, newest first. */
  lemma PendingOrdersSpec(rows: seq<OrderRow>)
    ensures NewestFirst(PendingOrders(rows))
    ensures forall o :: o in PendingOrders(rows) ==> o in rows && o.status == PendingPayment
    ensures forall o :: o in rows && o.status == PendingPayment ==> o in PendingOrders(rows)
    ensures multiset(PendingOrders(rows)) == multiset(FilterPending(rows))
  {
    var p := PendingOrders(rows);
    FilterPendingSubset(rows);
    forall o | o in p ensures o in rows && o.status == PendingPayment {
      assert o in multiset(p);
      assert o in multiset(FilterPending(rows));
    }
    forall o | o in rows && o.status == PendingPayment ensures o in p {
      var i :| 0 <= i < |rows| && rows[i] == o;
      FilterPendingKeepsPending(rows, i);
      assert o in multiset(FilterPending(rows));
      assert o in multiset(p);
    }
  }

  /** `update({ status: 'paid' }).eq('id', id)`. */
  function MarkPaid(rows: seq<OrderRow>, id: int): (r: seq<OrderRow>)
    ensures |r| == |rows|
    ensures forall i :: 0 <= i < |rows| ==>
      r[i] == if rows[i].id == id then rows[i].(status := Paid) else rows[i]
  {
    seq(|rows|, i requires 0 <= i < |rows| => if rows[i].id == id then rows[i].(status := Paid) else rows[i])
  }

  /** Once an order is marked paid it drops out of the pending list, and every
      other pending order stays in it. */
  lemma PaidLeavesPending(rows: seq<OrderRow>, id: int)
    ensures forall o :: o in PendingOrders(MarkPaid(rows, id)) ==> o.id != id
    ensures forall o :: o in PendingOrders(rows) && o.id != id ==> o in PendingOrders(MarkPaid(rows, id))
  {
    var after := MarkPaid(rows, id);
    PendingOrdersSpec(rows);
    PendingOrdersSpec(after);
    forall o | o in PendingOrders(after) ensures o.id != id {
      var i :| 0 <= i < |after| && after[i] == o;
    }
    forall o | o in PendingOrders(rows) && o.id != id ensures o in PendingOrders(after) {
      var i :| 0 <= i < |rows| && rows[i] == o;
      assert after[i] == o;
    }
  }

  // ---------------------------------------------------------------------
  // The console

  /** The body posted to the `paid` email endpoint. */
  datatype EmailPayload = EmailPayload(email: string, name: string, orderCode: string)

  /** A missing customer name (the empty string here) is sent as "Customer". */
  function PaidEmail(order: OrderRow): (p: EmailPayload)
    ensures p.email == order.customerEmail && p.orderCode == order.orderCode
    ensures p.name != ""
    ensures order.customerName != "" ==> p.name == order.customerName
  {
    EmailPayload(order.customerEmail, if order.customerName == "" then "Customer" else order.customerName, order.orderCode)
  }

  datatype StockUpdateOutcome = ReadFailed | WriteFailed | Written(newQty: int)

  class AdminConsole {
    /** The remote `products` and `orders` tables. */
    var productTable: seq<ProductRow>
    var orderTable: seq<OrderRow>
    /** The lists the page shows. */
    var products: seq<ProductRow>
    var orders: seq<OrderRow>

    constructor (productTable: seq<ProductRow>, orderTable: seq<OrderRow>)
      ensures this.productTable == productTable && this.orderTable == orderTable
      ensures products == [] && orders == []
    {
      this.productTable := productTable;
      this.orderTable := orderTable;
      products := [];
      orders := [];
    }

    /** fetchOrders: on success the pending list is replaced; on error it is
        kept. */
    method FetchOrders(queryFails: bool)
      modifies this`orders
      ensures queryFails ==> orders == old(orders)
      ensures !queryFails ==> orders == PendingOrders(orderTable)
    {
      if !queryFails {
        orders := PendingOrders(orderTable);
      }
    }

    /** fetchInventory: on success the inventory list is replaced by the table. */
    method FetchInventory(queryFails: bool)
      modifies this`products
      ensures queryFails ==> products == old(products)
      ensures !queryFails ==> products == productTable
    {
      if !queryFails {
        products := productTable;
      }
    }

    /** updateStock(sku, delta). The read must find exactly one row; the new
        quantity is `Math.max(0, current + delta)` and goes to the rows with
        that SKU only. The read and the write are two separate round trips:
        `tableAtWrite` is the table as it stands when the write arrives (the
        table read, unless another client changed it in between), and the
        write lands on it with the quantity computed from the read. A failed
        read writes nothing; a failed write adds nothing to the table; after
        a write the inventory list is refetched. */
    method UpdateStock(sku: string, delta: int, tableAtWrite: seq<ProductRow>,
                       readFails: bool, writeFails: bool, refetchFails: bool)
      returns (outcome: StockUpdateOutcome)
      modifies this`productTable, this`products
      ensures readFails || MatchingRows(old(productTable), sku) != 1 ==>
        outcome == ReadFailed && productTable == old(productTable) && products == old(products)
      ensures !readFails && MatchingRows(old(productTable), sku) == 1 ==>
        var newQty := Max0(StockOf(old(productTable), sku) + delta);
        && (writeFails ==> outcome == WriteFailed && productTable == tableAtWrite && products == old(products))
        && (!writeFails ==> outcome == Written(newQty) && productTable == SetStock(tableAtWrite, sku, newQty)
                            && products == if refetchFails then old(products) else productTable)
      ensures outcome.Written? ==> outcome.newQty >= 0
    {
      if readFails || MatchingRows(productTable, sku) != 1 {
        return ReadFailed;
      }
      var current := StockOf(productTable, sku);
      var newQty := Max0(current + delta);
      productTable := tableAtWrite;
      if writeFails {
        return WriteFailed;
      }
      productTable := SetStock(productTable, sku, newQty);
      FetchInventory(refetchFails);
      outcome := Written(newQty);
    }

    /** confirmPaid(order): only after the admin confirms; the status write
        touches only that order; the "paid" email goes out only when the
        write succeeded (with "Customer" for a missing name), and then the
        pending list is refetched. */
    method ConfirmPaid(order: OrderRow, confirmed: bool, writeFails: bool, refetchFails: bool)
      returns (email: Option<EmailPayload>)
      modifies this`orderTable, this`orders
      ensures email.Some? <==> confirmed && !writeFails
      ensures email.Some? ==> email.value == PaidEmail(order)
      ensures email.None? ==> orderTable == old(orderTable) && orders == old(orders)
      ensures email.Some? ==> orderTable == MarkPaid(old(orderTable), order.id)
      ensures email.Some? && !refetchFails ==> orders == PendingOrders(orderTable)
      ensures email.Some? && refetchFails ==> orders == old(orders)
    {
      if !confirmed {
        return None;
      }
      if writeFails {
        return None;
      }
      orderTable := MarkPaid(orderTable, order.id);
      email := Some(PaidEmail(order));
      FetchOrders(refetchFails);
    }
  }

  /** A lost update: the admin reads 5 bags and adds one; meanwhile an order
      takes 2 bags, leaving 3. The write stores 6, not 4, so the order's
      decrement is gone. */
  lemma LostStockUpdate()
    ensures var read := [ProductRow("crunch-classic", "Classic", 5)];
      var tableAtWrite := [ProductRow("crunch-classic", "Classic", 3)];
      var after := SetStock(tableAtWrite, "crunch-classic", Max0(StockOf(read, "crunch-classic") + 1));
      && StockOf(tableAtWrite, "crunch-classic") + 1 == 4
      && MatchingRows(after, "crunch-classic") == 1
      && StockOf(after, "crunch-classic") == 6
  {
    var read := [ProductRow("crunch-classic", "Classic", 5)];
    var tableAtWrite := [ProductRow("crunch-classic", "Classic", 3)];
    SetStockReadBack(tableAtWrite, "crunch-classic", 6, "crunch-classic");
  }

  /** The value written by a stock adjustment is never negative, and is
      exactly `current + delta` when that is not negative. */
  lemma AdjustedStock(current: int, delta: int)
    ensures Max0(current + delta) >= 0
    ensures current + delta >= 0 ==> Max0(current + delta) == current + delta
  {
  }
}
