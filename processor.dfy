/** The order processor: runs the whole document chain for one order and
    appends one flat result record to the run's result list; the batch mode
    does so once per input row, in row order. */
module OrderProcessor {
  import opened DocIds
  import opened Documents

  /** One input row, already typed: quantity as an integer, unit price in cents. */
  datatype OrderRow = OrderRow(customer: string, product: string, qty: int, price: int, orderDate: string)

  /** The flat result record of one processed order, one field per output column. */
  datatype OrderRecord = OrderRecord(
    orderDate: string, customer: string, product: string, qty: int,
    salesOrder: string, plannedOrder: string, productionOrder: string,
    confirmed: bool, delivery: string, invoice: string, billingStatus: string,
    amount: int)

  /** The record that processing `row` as the order with this serial appends. */
  function ExpectedRecord(row: OrderRow, serial: nat): OrderRecord
  {
    OrderRecord(row.orderDate, row.customer, row.product, row.qty,
                MakeId(SO, serial), MakeId(PL, serial), MakeId(PO, serial),
                true, DELIVERY_DONE, MakeId(INV, serial), BILL_PAID,
                row.price * row.qty)
  }

  /** The records a batch of rows appends when the first row gets serial `start`:
      one per row, in row order. */
  function BatchRecords(rows: seq<OrderRow>, start: nat): (rs: seq<OrderRecord>)
    ensures |rs| == |rows|
    ensures forall i :: 0 <= i < |rows| ==> rs[i] == ExpectedRecord(rows[i], start + i)
  {
    if rows == [] then []
    else BatchRecords(rows[..|rows| - 1], start) + [ExpectedRecord(rows[|rows| - 1], start + |rows| - 1)]
  }

  /** Running two batches one after the other appends what running their
      concatenation appends. */
  lemma BatchRecordsAppend(rows1: seq<OrderRow>, rows2: seq<OrderRow>, start: nat)
    ensures BatchRecords(rows1 + rows2, start)
         == BatchRecords(rows1, start) + BatchRecords(rows2, start + |rows1|)
  {
  }

  /** The document kinds whose identifiers a record carries, column by column. */
  const RecordKinds: seq<DocKind> := [SO, PL, PO, INV]

  function RecordIds(r: OrderRecord): (ids: seq<string>)
    ensures |ids| == |RecordKinds|
  {
    [r.salesOrder, r.plannedOrder, r.productionOrder, r.invoice]
  }

  /** Every identifier in record r was built for the order with this serial. */
  ghost predicate IdsFrom(r: OrderRecord, serial: nat)
  {
    forall a :: 0 <= a < |RecordKinds| ==> RecordIds(r)[a] == MakeId(RecordKinds[a], serial)
  }

  /** No identifier occurs twice among the records, within a record or across two. */
  ghost predicate AllIdsDistinct(rs: seq<OrderRecord>)
  {
    forall i, a, j, b ::
      0 <= i < |rs| && 0 <= j < |rs| && 0 <= a < |RecordKinds| && 0 <= b < |RecordKinds| && (i != j || a != b)
      ==> RecordIds(rs[i])[a] != RecordIds(rs[j])[b]
  }

  lemma ExpectedRecordIds(row: OrderRow, serial: nat)
    ensures IdsFrom(ExpectedRecord(row, serial), serial)
  {
  }

  /** Records built from pairwise different serials carry pairwise different identifiers. */
  lemma IdsDistinctFromSerials(rs: seq<OrderRecord>)
    requires forall i :: 0 <= i < |rs| ==> IdsFrom(rs[i], i)
    ensures AllIdsDistinct(rs)
  {
    forall i, a, j, b |
      0 <= i < |rs| && 0 <= j < |rs| && 0 <= a < |RecordKinds| && 0 <= b < |RecordKinds| && (i != j || a != b)
      ensures RecordIds(rs[i])[a] != RecordIds(rs[j])[b]
    {
      IdUnique(RecordKinds[a], i, RecordKinds[b], j);
    }
  }

  /** The records of a whole batch run carry pairwise different identifiers. */
  lemma BatchIdsDistinct(rows: seq<OrderRow>)
    ensures AllIdsDistinct(BatchRecords(rows, 0))
  {
    var rs := BatchRecords(rows, 0);
    forall i | 0 <= i < |rs| ensures IdsFrom(rs[i], i) {
      ExpectedRecordIds(rows[i], i);
    }
    IdsDistinctFromSerials(rs);
  }

  /** The processor state: the list of result records collected during one run.
      The order at position i of the list used serial i for its documents. */
  class Engine {
    var results: seq<OrderRecord>

    ghost predicate Valid()
      reads this
    {
      forall i :: 0 <= i < |results| ==> IdsFrom(results[i], i)
    }

    constructor ()
      ensures Valid() && results == []
    {
      results := [];
    }

    /** Builds the chain sales order -> planned order -> production order ->
        delivery -> billing for one order, and appends its record. The ghost
        out-parameters name the documents built, to state their linkage. */
    method ProcessOrder(customer: string, product: string, qty: int, price: int, orderDate: string)
      returns (ghost so: SalesOrder, ghost pl: PlannedOrder, ghost prod: ProductionOrder,
               ghost dlv: Delivery, ghost bill: Billing)
      requires Valid()
      modifies this`results
      ensures Valid() && AllIdsDistinct(results)
      ensures results == old(results) + [ExpectedRecord(OrderRow(customer, product, qty, price, orderDate), old(|results|))]
      ensures fresh(so) && fresh(pl) && fresh(prod) && fresh(dlv) && fresh(bill)
      ensures so.plannedOrder == pl && pl.salesOrderId == so.id
      ensures pl.productionOrder == prod && prod.plannedOrderId == pl.id
      ensures dlv.productionOrderId == prod.id && bill.deliveryId == dlv.id
      ensures dlv.id == MakeId(DLV, old(|results|)) && dlv.customer == customer
      ensures var rec := results[|results| - 1];
        && rec.salesOrder == so.id && rec.plannedOrder == pl.id
        && rec.productionOrder == prod.id && rec.invoice == bill.id
        && rec.confirmed == prod.confirmed == true
        && rec.delivery == dlv.status == DELIVERY_DONE
        && rec.billingStatus == bill.status == BILL_PAID
        && rec.qty == so.qty == qty
        && rec.amount == bill.amount == so.price * so.qty
    {
      var serial := |results|;
      var s := CreateSalesOrder(serial, customer, product, qty, price, orderDate);
      var p := GeneratePlannedOrder(s, serial);
      var po := ConvertToProductionOrder(p, serial);
      var confirmedOrder := ConfirmProduction(po);
      var delivered := DeliverGoods(po, s.customer, serial);
      // confirmation ran first, so the guard in DeliverGoods cannot fire
      assert delivered.Success?;
      var d := delivered.value;
      var b := GenerateBilling(d, s.price, s.qty, serial);
      results := results + [OrderRecord(s.orderDate, s.customer, s.product, s.qty,
                                        s.id, p.id, po.id, po.confirmed, d.status,
                                        b.id, b.status, b.amount)];
      ExpectedRecordIds(OrderRow(customer, product, qty, price, orderDate), serial);
      IdsDistinctFromSerials(results);
      so, pl, prod, dlv, bill := s, p, po, d, b;
    }

    /** Batch mode: processes the rows in order, one record per row. */
    method RunBatch(rows: seq<OrderRow>)
      requires Valid()
      modifies this`results
      ensures Valid() && AllIdsDistinct(results)
      ensures results == old(results) + BatchRecords(rows, old(|results|))
    {
      for i := 0 to |rows|
        invariant Valid()
        invariant results == old(results) + BatchRecords(rows[..i], old(|results|))
      {
        var row := rows[i];
        ghost var so, pl, prod, dlv, bill := ProcessOrder(row.customer, row.product, row.qty, row.price, row.orderDate);
        assert rows[..i + 1] == rows[..i] + [rows[i]];
        BatchRecordsAppend(rows[..i], [rows[i]], old(|results|));
      }
      assert rows[..|rows|] == rows;
      IdsDistinctFromSerials(results);
    }
  }

  /** Batch mode as a run performs it: an empty result list, then every row in
      order. The run's records are exactly the batch's and no id repeats. */
  method BatchMode(rows: seq<OrderRow>) returns (engine: Engine)
    ensures fresh(engine) && engine.Valid()
    ensures engine.results == BatchRecords(rows, 0)
    ensures AllIdsDistinct(engine.results)
  {
    engine := new Engine();
    engine.RunBatch(rows);
    BatchIdsDistinct(rows);
  }
}
