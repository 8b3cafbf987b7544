/** The stock ledger client: a snapshot of the `products` table as a map
    from SKU to stock quantity, and the lookup every availability check uses.
    The query itself is not modelled; its three possible outcomes are an input. */
module Inventory {
  import opened Common

  type Sku = string
  type StockMap = map<Sku, int>

  /** getStockLevel: `stockMap.get(sku) || 0`. A SKU that is not in the
      snapshot reads as 0; a stored value comes back unchanged, negative ones
      included, since no clamping happens here. */
  function GetStockLevel(stock: StockMap, sku: Sku): (level: int)
    ensures sku !in stock ==> level == 0
    ensures sku in stock ==> level == stock[sku]
  {
    OrZero(Get(stock, sku))
  }

  /** One row of `select sku, stock_qty from products`; a null SKU is written "". */
  datatype StockRow = StockRow(sku: Sku, stockQty: int)

  /** What the snapshot query can come back with. */
  datatype StockQuery =
    | Rows(rows: seq<StockRow>)   // `{ data, error: null }`
    | QueryError                  // `{ error }` from the client library
    | Thrown                      // an exception inside the `try`

  /** The map the forEach builds from `rows`: every row with a non-empty SKU
      is `set` in turn, so a later row overwrites an earlier one. */
  function BuildStockMap(rows: seq<StockRow>): (stock: StockMap)
    ensures "" !in stock
    ensures forall sku :: sku in stock ==>
      exists i :: 0 <= i < |rows| && rows[i] == StockRow(sku, stock[sku])
  {
    if rows == [] then map[]
    else
      var m := BuildStockMap(rows[..|rows| - 1]);
      var row := rows[|rows| - 1];
      if row.sku != "" then m[row.sku := row.stockQty] else m
  }

  /** fetchStockData: the snapshot on success, an empty map on either error path. */
  method FetchStockData(response: StockQuery) returns (stock: StockMap)
    ensures !response.Rows? ==> stock == map[]
    ensures response.Rows? ==> stock == BuildStockMap(response.rows)
  {
    if !response.Rows? {
      return map[];
    }
    var rows := response.rows;
    stock := map[];
    for i := 0 to |rows|
      invariant stock == BuildStockMap(rows[..i])
    {
      assert rows[..i + 1][..i] == rows[..i];
      if rows[i].sku != "" {
        stock := stock[rows[i].sku := rows[i].stockQty];
      }
    }
    assert rows[..|rows|] == rows;
  }

  /** The snapshot holds exactly the SKUs of the rows that carry one. */
  lemma {:induction false} BuildStockMapKeys(rows: seq<StockRow>, sku: Sku)
    ensures sku in BuildStockMap(rows) <==>
            sku != "" && exists i :: 0 <= i < |rows| && rows[i].sku == sku
  {
    if rows != [] {
      var init := rows[..|rows| - 1];
      BuildStockMapKeys(init, sku);
      if sku != "" && (exists i :: 0 <= i < |init| && init[i].sku == sku) {
        var i :| 0 <= i < |init| && init[i].sku == sku;
        assert rows[i].sku == sku;
      }
      if sku != "" && (exists i :: 0 <= i < |rows| && rows[i].sku == sku) {
        var i :| 0 <= i < |rows| && rows[i].sku == sku;
        if i < |init| {
          assert init[i].sku == sku;
        }
      }
    }
  }

  /** Last write wins: the value stored for a SKU is the quantity of the last
      row that carries it. */
  lemma {:induction false} BuildStockMapLastWins(rows: seq<StockRow>, i: nat)
    requires i < |rows| && rows[i].sku != ""
    requires forall j :: i < j < |rows| ==> rows[j].sku != rows[i].sku
    ensures rows[i].sku in BuildStockMap(rows)
    ensures BuildStockMap(rows)[rows[i].sku] == rows[i].stockQty
  {
    var init := rows[..|rows| - 1];
    if i < |rows| - 1 {
      BuildStockMapLastWins(init, i);
    }
  }
}
