/** The five business documents of one make-to-order chain and the step
    functions that derive each document from the one before it.  A field the
    source only assigns in its constructor is a `const`; the five fields the
    steps change afterwards are `var`s. Money is in integer cents. */
module Documents {
  import opened DocIds

  const DELIVERY_PENDING := "Pending"
  const DELIVERY_DONE := "Delivered"
  const BILL_UNPAID := "Unpaid"
  const BILL_PAID := "Paid"
  const NOT_CONFIRMED := "Production not confirmed, cannot deliver."

  datatype Result<T> = Success(value: T) | Failure(error: string)

  class SalesOrder {
    const id: string
    const customer: string
    const product: string
    const qty: int
    const price: int
    const orderDate: string
    var plannedOrder: PlannedOrder?

    constructor (serial: nat, customer: string, product: string, qty: int, price: int, orderDate: string)
      ensures id == MakeId(SO, serial)
      ensures this.customer == customer && this.product == product && this.qty == qty
      ensures this.price == price && this.orderDate == orderDate
      ensures plannedOrder == null
    {
      id := MakeId(SO, serial);
      this.customer := customer;
      this.product := product;
      this.qty := qty;
      this.price := price;
      this.orderDate := orderDate;
      plannedOrder := null;
    }
  }

  class PlannedOrder {
    const id: string
    const salesOrderId: string
    const product: string
    const qty: int
    var productionOrder: ProductionOrder?

    constructor (salesOrder: SalesOrder, serial: nat)
      ensures id == MakeId(PL, serial) && salesOrderId == salesOrder.id
      ensures product == salesOrder.product && qty == salesOrder.qty
      ensures productionOrder == null
    {
      id := MakeId(PL, serial);
      salesOrderId := salesOrder.id;
      product := salesOrder.product;
      qty := salesOrder.qty;
      productionOrder := null;
    }
  }

  class ProductionOrder {
    const id: string
    const plannedOrderId: string
    const product: string
    const qty: int
    var confirmed: bool

    constructor (plannedOrder: PlannedOrder, serial: nat)
      ensures id == MakeId(PO, serial) && plannedOrderId == plannedOrder.id
      ensures product == plannedOrder.product && qty == plannedOrder.qty
      ensures !confirmed
    {
      id := MakeId(PO, serial);
      plannedOrderId := plannedOrder.id;
      product := plannedOrder.product;
      qty := plannedOrder.qty;
      confirmed := false;
    }
  }

  class Delivery {
    const id: string
    const productionOrderId: string
    const customer: string
    var status: string

    constructor (productionOrder: ProductionOrder, customer: string, serial: nat)
      ensures id == MakeId(DLV, serial) && productionOrderId == productionOrder.id
      ensures this.customer == customer && status == DELIVERY_PENDING
    {
      id := MakeId(DLV, serial);
      productionOrderId := productionOrder.id;
      this.customer := customer;
      status := DELIVERY_PENDING;
    }
  }

  class Billing {
    const id: string
    const deliveryId: string
    const amount: int
    var status: string

    constructor (delivery: Delivery, amount: int, serial: nat)
      ensures id == MakeId(INV, serial) && deliveryId == delivery.id
      ensures this.amount == amount && status == BILL_UNPAID
    {
      id := MakeId(INV, serial);
      deliveryId := delivery.id;
      this.amount := amount;
      status := BILL_UNPAID;
    }
  }

  method CreateSalesOrder(serial: nat, customer: string, product: string, qty: int, price: int, orderDate: string)
    returns (so: SalesOrder)
    ensures fresh(so)
    ensures so.id == MakeId(SO, serial)
    ensures so.customer == customer && so.product == product && so.qty == qty
    ensures so.price == price && so.orderDate == orderDate
    ensures so.plannedOrder == null
  {
    so := new SalesOrder(serial, customer, product, qty, price, orderDate);
  }

  /** Derives the planned order and records it on the sales order; no other
      field of the sales order changes (they are constants). */
  method GeneratePlannedOrder(so: SalesOrder, serial: nat) returns (planned: PlannedOrder)
    modifies so`plannedOrder
    ensures fresh(planned)
    ensures planned.id == MakeId(PL, serial) && planned.salesOrderId == so.id
    ensures planned.product == so.product && planned.qty == so.qty
    ensures planned.productionOrder == null
    ensures so.plannedOrder == planned
  {
    planned := new PlannedOrder(so, serial);
    so.plannedOrder := planned;
  }

  /** Derives the production order, unconfirmed, and records it on the planned order. */
  method ConvertToProductionOrder(planned: PlannedOrder, serial: nat) returns (prod: ProductionOrder)
    modifies planned`productionOrder
    ensures fresh(prod)
    ensures prod.id == MakeId(PO, serial) && prod.plannedOrderId == planned.id
    ensures prod.product == planned.product && prod.qty == planned.qty
    ensures !prod.confirmed
    ensures planned.productionOrder == prod
  {
    prod := new ProductionOrder(planned, serial);
    planned.productionOrder := prod;
  }

  /** Sets the confirmed flag and returns the same order. Confirming an order
      that is already confirmed changes nothing, so the step is idempotent. */
  method ConfirmProduction(prod: ProductionOrder) returns (same: ProductionOrder)
    modifies prod`confirmed
    ensures same == prod && prod.confirmed
    ensures old(prod.confirmed) ==> unchanged(prod)
  {
    prod.confirmed := true;
    same := prod;
  }

  /** Fails, creating nothing, unless the production order is confirmed;
      otherwise creates the delivery, moved from "Pending" to "Delivered". */
  method DeliverGoods(prod: ProductionOrder, customer: string, serial: nat) returns (r: Result<Delivery>)
    ensures r.Failure? <==> !prod.confirmed
    ensures r.Failure? ==> r.error == NOT_CONFIRMED
    ensures r.Success? ==> fresh(r.value)
    ensures r.Success? ==> r.value.id == MakeId(DLV, serial) && r.value.productionOrderId == prod.id
    ensures r.Success? ==> r.value.customer == customer && r.value.status == DELIVERY_DONE
  {
    if !prod.confirmed {
      return Failure(NOT_CONFIRMED);
    }
    var delivery := new Delivery(prod, customer, serial);
    delivery.status := DELIVERY_DONE;
    r := Success(delivery);
  }

  /** Creates the invoice for a delivery, for price times quantity, moved from
      "Unpaid" to "Paid". */
  method GenerateBilling(delivery: Delivery, unitPrice: int, qty: int, serial: nat) returns (bill: Billing)
    ensures fresh(bill)
    ensures bill.id == MakeId(INV, serial) && bill.deliveryId == delivery.id
    ensures bill.amount == unitPrice * qty && bill.status == BILL_PAID
  {
    var total := unitPrice * qty;
    bill := new Billing(delivery, total, serial);
    bill.status := BILL_PAID;
  }
}
