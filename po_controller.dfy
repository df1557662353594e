/**
 * The purchase-order handlers of the backend (src/controllers/poController.js)
 * over an in-memory store: the purchase_orders rows with their po_items, the
 * stock column of raw_materials, and the append-only stock_logs table.
 *
 * A database transaction is modelled as all-or-nothing: every handler either
 * assigns the store's fields once at the end or leaves them untouched.
 *
 * Every `{ transaction }` option in the source file names an identifier that
 * is never declared (the handle is `t`); as written, create, update, delete
 * and receive would throw a ReferenceError at their first query and answer
 * 500 without changing anything. This model gives those handlers their
 * evident meaning, `transaction: t`.
 *
 * The backend helpers `updateStock` and `logStockMovement` are not part of
 * this model. They are taken abstractly: an 'in' movement adds the quantity to
 * the material's stock and appends one log record; `updateStock` throws (and
 * the handler rolls back) when the material has no row.
 */
module PoController {
  import opened Wrappers

  datatype PoStatus = Pending | Approved | Received | Cancelled

  /** The status value stored in the database and sent to the browser. */
  function StatusName(s: PoStatus): string {
    match s
    case Pending => "pending"
    case Approved => "approved"
    case Received => "received"
    case Cancelled => "cancelled"
  }

  /** One element of `req.body.items`. */
  datatype ItemInput = ItemInput(materialId: int, quantity: int, price: int)

  /** A po_items row. */
  datatype PoItem = PoItem(materialId: int, quantity: int, price: int, subtotal: int)

  /**
   * The order fields of `req.body` besides `items`. The route validator
   * requires the first four; `notes`, `total` and `created_by` may be absent.
   */
  datatype OrderBody = OrderBody(poNumber: string, supplierId: int, orderDate: string, status: PoStatus,
                                 notes: Option<string>, total: Option<int>, createdBy: Option<int>)

  /** The header columns of a purchase_orders row (a missing `notes` is null). */
  datatype OrderData = OrderData(poNumber: string, supplierId: int, orderDate: string, status: PoStatus, notes: Option<string>)

  /** A purchase_orders row together with its po_items. */
  datatype PurchaseOrder = PurchaseOrder(id: nat, data: OrderData, total: int, createdBy: int, items: seq<PoItem>)

  datatype ItemType = MaterialItem | ProductItem
  datatype Movement = In | Out | Adjust
  datatype ReferenceType = PoRef | WoRef | SoRef | AdjustmentRef

  /** A stock_logs row. */
  datatype StockLog = StockLog(itemType: ItemType, itemId: int, movementType: Movement, quantity: int,
                               referenceType: ReferenceType, referenceId: int, notes: string, createdBy: int)

  /** What an exception inside a handler's `try` was caused by; the handler then rolls back and answers 500. */
  datatype Thrown = ItemsNotIterable | StockUpdateFailed(materialId: int)

  /** The HTTP answer of a handler. */
  datatype Response = Success(code: int, message: string) | Failure(code: int, message: string) | Error(cause: Thrown)
  {
    function Code(): int {
      match this
      case Success(c, _) => c
      case Failure(c, _) => c
      case Error(_) => 500
    }
  }

  const NotFound := Failure(404, "Purchase order not found")

  // ---------------------------------------------------------------- guards

  predicate CanUpdate(s: PoStatus) { s != Received && s != Cancelled }
  predicate CanDelete(s: PoStatus) { s != Received }
  predicate CanReceive(s: PoStatus) { s == Approved }
  predicate CanApprove(s: PoStatus) { s == Pending }
  predicate CanCancel(s: PoStatus) { s != Received }

  // ---------------------------------------------------------------- totals

  function PriceLine(i: ItemInput): PoItem {
    PoItem(i.materialId, i.quantity, i.price, i.quantity * i.price)
  }

  /** The po_items rows created from `items`, in order. */
  function Priced(inputs: seq<ItemInput>): (items: seq<PoItem>)
    ensures |items| == |inputs|
  {
    seq(|inputs|, k requires 0 <= k < |inputs| => PriceLine(inputs[k]))
  }

  /** Sum of the subtotals, accumulated from the first item to the last. */
  function OrderTotal(items: seq<PoItem>): int {
    if items == [] then 0 else OrderTotal(items[..|items| - 1]) + items[|items| - 1].subtotal
  }

  /** Sum of quantity * price over the submitted items, an independent reference for the total. */
  function LineValue(inputs: seq<ItemInput>): int {
    if inputs == [] then 0 else inputs[0].quantity * inputs[0].price + LineValue(inputs[1..])
  }

  /** Every row's subtotal is its quantity times its price. */
  ghost predicate RowsPriced(po: PurchaseOrder) {
    forall k :: 0 <= k < |po.items| ==> po.items[k].subtotal == po.items[k].quantity * po.items[k].price
  }

  /** A stored order whose subtotals and total are what create/update compute. */
  ghost predicate WellPriced(po: PurchaseOrder) {
    RowsPriced(po) && po.total == OrderTotal(po.items)
  }

  /** The header a create stores: the body's columns, with `po_number` generated when empty. */
  function CreatedHeader(body: OrderBody, generated: string): OrderData {
    OrderData(if body.poNumber == "" then generated else body.poNumber, body.supplierId, body.orderDate, body.status, body.notes)
  }

  /**
   * `purchaseOrder.update(orderData)`: every column the body carries is
   * written, the ones it leaves out (`notes`, `total`, `created_by`) keep their
   * stored values; the rows are untouched.
   */
  function Merged(po: PurchaseOrder, body: OrderBody): (m: PurchaseOrder)
    ensures m.id == po.id && m.items == po.items
    ensures m.data.status == body.status && m.data.poNumber == body.poNumber
    ensures m.data.notes == (if body.notes.Some? then body.notes else po.data.notes)
    ensures m.total == (if body.total.Some? then body.total.value else po.total)
    ensures m.createdBy == (if body.createdBy.Some? then body.createdBy.value else po.createdBy)
  {
    po.(data := OrderData(body.poNumber, body.supplierId, body.orderDate, body.status,
                          if body.notes.Some? then body.notes else po.data.notes),
        total := if body.total.Some? then body.total.value else po.total,
        createdBy := if body.createdBy.Some? then body.createdBy.value else po.createdBy)
  }

  /**
   * An update keeps an order's total equal to its rows' sum when it sends
   * items, or sends no total; a total sent without items is stored as sent.
   */
  lemma MergedTotal(po: PurchaseOrder, body: OrderBody, inputs: seq<ItemInput>)
    ensures WellPriced(Merged(po, body).(items := Priced(inputs), total := LineValue(inputs)))
    ensures WellPriced(po) && body.total.None? ==> WellPriced(Merged(po, body))
    ensures RowsPriced(po) ==> RowsPriced(Merged(po, body))
    ensures body.total.Some? ==> Merged(po, body).total == body.total.value
  {
    LineValueIsTotal(inputs);
  }

  /**
   * The total loop of create and update (lines 106-122 and 196-209): one
   * row per submitted item with subtotal quantity * price, and the running sum.
   */
  method PriceItems(inputs: seq<ItemInput>) returns (items: seq<PoItem>, total: int)
    ensures items == Priced(inputs)
    ensures total == OrderTotal(items) && total == LineValue(inputs)
  {
    items, total := [], 0;
    var i := 0;
    while i < |inputs|
      invariant 0 <= i <= |inputs|
      invariant items == Priced(inputs[..i])
      invariant total == OrderTotal(items)
    {
      var item := inputs[i];
      var subtotal := item.quantity * item.price;
      total := total + subtotal;
      items := items + [PoItem(item.materialId, item.quantity, item.price, subtotal)];
      assert inputs[..i + 1] == inputs[..i] + [item];
      i := i + 1;
    }
    assert inputs[..i] == inputs;
    LineValueIsTotal(inputs);
  }

  lemma {:induction false} LineValueSnoc(inputs: seq<ItemInput>, x: ItemInput)
    ensures LineValue(inputs + [x]) == LineValue(inputs) + x.quantity * x.price
    decreases |inputs|
  {
    if inputs != [] {
      assert (inputs + [x])[1..] == inputs[1..] + [x];
      LineValueSnoc(inputs[1..], x);
    }
  }

  /** The stored total is the sum of quantity * price over the submitted items, and each row is well priced. */
  lemma {:induction false} LineValueIsTotal(inputs: seq<ItemInput>)
    ensures OrderTotal(Priced(inputs)) == LineValue(inputs)
    ensures forall k :: 0 <= k < |inputs| ==> Priced(inputs)[k].subtotal == inputs[k].quantity * inputs[k].price
    decreases |inputs|
  {
    if inputs != [] {
      var n := |inputs| - 1;
      assert Priced(inputs)[..n] == Priced(inputs[..n]);
      LineValueIsTotal(inputs[..n]);
      assert inputs == inputs[..n] + [inputs[n]];
      LineValueSnoc(inputs[..n], inputs[n]);
    }
  }

  lemma PricedIsWellPriced(id: nat, data: OrderData, createdBy: int, inputs: seq<ItemInput>)
    ensures WellPriced(PurchaseOrder(id, data, OrderTotal(Priced(inputs)), createdBy, Priced(inputs)))
  {
  }

  // ---------------------------------------------------------------- receiving

  /** The log row written for one received item (lines 331-341). */
  function ReceiptLog(po: PurchaseOrder, item: PoItem, actor: int): StockLog {
    StockLog(MaterialItem, item.materialId, In, item.quantity, PoRef, po.id,
             "Received from PO: " + po.data.poNumber, actor)
  }

  /** The log rows written by a receive, one per item in order. */
  function ReceiptLogs(po: PurchaseOrder, items: seq<PoItem>, actor: int): (logs: seq<StockLog>)
    ensures |logs| == |items|
    ensures forall k :: 0 <= k < |items| ==> logs[k] == ReceiptLog(po, items[k], actor)
  {
    if items == [] then [] else ReceiptLogs(po, items[..|items| - 1], actor) + [ReceiptLog(po, items[|items| - 1], actor)]
  }

  /** The stock table after the items' 'in' movements, or None when a material has no row. */
  function StockIn(stock: map<int, int>, items: seq<PoItem>): Option<map<int, int>> {
    if items == [] then Some(stock)
    else
      match StockIn(stock, items[..|items| - 1])
      case None => None
      case Some(s) =>
        var it := items[|items| - 1];
        if it.materialId in s then Some(s[it.materialId := s[it.materialId] + it.quantity]) else None
  }

  /** Total quantity of material `m` over the items. */
  function QuantityOf(items: seq<PoItem>, m: int): int {
    if items == [] then 0
    else QuantityOf(items[..|items| - 1], m) + (if items[|items| - 1].materialId == m then items[|items| - 1].quantity else 0)
  }

  /** The net stock movement of material `m` recorded in the ledger. */
  function Net(logs: seq<StockLog>, m: int): int {
    if logs == [] then 0
    else
      var l := logs[|logs| - 1];
      Net(logs[..|logs| - 1], m) +
      (if l.itemType == MaterialItem && l.itemId == m then
         (match l.movementType case In => l.quantity case Out => -l.quantity case Adjust => 0)
       else 0)
  }

  /**
   * A receive's stock effect: it succeeds exactly when every item's material
   * has a row, keeps the set of materials, raises each material by the
   * quantity received for it, and leaves materials not in the order as they were.
   */
  lemma {:induction false} StockInEffect(stock: map<int, int>, items: seq<PoItem>)
    ensures StockIn(stock, items).Some? <==> forall k :: 0 <= k < |items| ==> items[k].materialId in stock
    ensures StockIn(stock, items).Some? ==>
              && StockIn(stock, items).value.Keys == stock.Keys
              && forall m :: m in stock ==> StockIn(stock, items).value[m] == stock[m] + QuantityOf(items, m)
    decreases |items|
  {
    if items != [] {
      var n := |items| - 1;
      StockInEffect(stock, items[..n]);
      assert forall k :: 0 <= k < n ==> items[..n][k] == items[k];
    }
  }

  /** A material that no item names receives nothing. */
  lemma {:induction false} QuantityOfAbsent(items: seq<PoItem>, m: int)
    requires forall k :: 0 <= k < |items| ==> items[k].materialId != m
    ensures QuantityOf(items, m) == 0
    decreases |items|
  {
    if items != [] {
      QuantityOfAbsent(items[..|items| - 1], m);
    }
  }

  lemma {:induction false} NetAppend(logs: seq<StockLog>, extra: seq<StockLog>, m: int)
    ensures Net(logs + extra, m) == Net(logs, m) + Net(extra, m)
    decreases |extra|
  {
    if extra == [] {
      assert logs + extra == logs;
    } else {
      var n := |extra| - 1;
      var all := logs + extra;
      assert all[..|all| - 1] == logs + extra[..n];
      assert all[|all| - 1] == extra[n];
      NetAppend(logs, extra[..n], m);
    }
  }

  /** The ledger rows of a receive record exactly the quantities added to stock. */
  lemma {:induction false} NetOfReceipt(po: PurchaseOrder, items: seq<PoItem>, actor: int, m: int)
    ensures Net(ReceiptLogs(po, items, actor), m) == QuantityOf(items, m)
    decreases |items|
  {
    if items != [] {
      var n := |items| - 1;
      NetOfReceipt(po, items[..n], actor, m);
      assert ReceiptLogs(po, items, actor)[..n] == ReceiptLogs(po, items[..n], actor);
    }
  }

  /** Every item's material has a raw_materials row. */
  predicate AllStocked(stock: map<int, int>, items: seq<PoItem>) {
    forall k :: 0 <= k < |items| ==> items[k].materialId in stock
  }

  /** Each material's stock is its opening stock plus the net movement of its ledger rows. */
  ghost predicate Ledger(opening: map<int, int>, stock: map<int, int>, logs: seq<StockLog>) {
    stock.Keys == opening.Keys && forall m :: m in stock ==> stock[m] == opening[m] + Net(logs, m)
  }

  /** A completed receive keeps the ledger balanced. */
  lemma LedgerAfterReceipt(opening: map<int, int>, stock: map<int, int>, logs: seq<StockLog>, po: PurchaseOrder, actor: int)
    requires Ledger(opening, stock, logs) && StockIn(stock, po.items).Some?
    ensures Ledger(opening, StockIn(stock, po.items).value, logs + ReceiptLogs(po, po.items, actor))
  {
    StockInEffect(stock, po.items);
    var after := StockIn(stock, po.items).value;
    forall m | m in after
      ensures after[m] == opening[m] + Net(logs + ReceiptLogs(po, po.items, actor), m)
    {
      NetAppend(logs, ReceiptLogs(po, po.items, actor), m);
      NetOfReceipt(po, po.items, actor, m);
    }
  }

  lemma StockInStep(stock: map<int, int>, items: seq<PoItem>, i: nat, s: map<int, int>)
    requires i < |items| && StockIn(stock, items[..i]) == Some(s)
    ensures StockIn(stock, items[..i + 1]) ==
            if items[i].materialId in s then Some(s[items[i].materialId := s[items[i].materialId] + items[i].quantity]) else None
  {
    assert items[..i + 1][..i] == items[..i];
  }

  lemma AllStockedStep(stock: map<int, int>, items: seq<PoItem>, i: nat)
    requires i < |items| && AllStocked(stock, items[..i]) && items[i].materialId in stock
    ensures AllStocked(stock, items[..i + 1])
  {
    assert forall k :: 0 <= k < i ==> items[..i + 1][k] == items[..i][k];
  }

  lemma ReceiptLogsStep(po: PurchaseOrder, items: seq<PoItem>, i: nat, actor: int)
    requires i < |items|
    ensures ReceiptLogs(po, items[..i + 1], actor) == ReceiptLogs(po, items[..i], actor) + [ReceiptLog(po, items[i], actor)]
  {
    assert items[..i + 1][..i] == items[..i];
  }

  /**
   * The loop of `receivePurchaseOrder` on local copies of the stock table and
   * the ledger: the state after every item's movement, or the material of the
   * first item that has no row.
   */
  method ApplyReceipt(stock: map<int, int>, logs: seq<StockLog>, po: PurchaseOrder, actor: int)
    returns (failed: Option<int>, newStock: map<int, int>, newLogs: seq<StockLog>)
    ensures failed.None? <==> AllStocked(stock, po.items)
    ensures failed.None? ==> StockIn(stock, po.items) == Some(newStock) && newLogs == logs + ReceiptLogs(po, po.items, actor)
    ensures failed.Some? ==> exists k :: 0 <= k < |po.items| && AllStocked(stock, po.items[..k])
                                         && po.items[k].materialId == failed.value && failed.value !in stock
  {
    var items := po.items;
    newStock, newLogs := stock, logs;
    var i := 0;
    while i < |items|
      invariant 0 <= i <= |items|
      invariant StockIn(stock, items[..i]) == Some(newStock)
      invariant newStock.Keys == stock.Keys
      invariant AllStocked(stock, items[..i])
      invariant newLogs == logs + ReceiptLogs(po, items[..i], actor)
    {
      var item := items[i];
      if item.materialId !in newStock {
        assert item.materialId !in stock;
        assert !AllStocked(stock, items);
        assert po.items[i].materialId == item.materialId && AllStocked(stock, po.items[..i]);
        return Some(item.materialId), newStock, newLogs;
      }
      StockInStep(stock, items, i, newStock);
      ReceiptLogsStep(po, items, i, actor);
      AllStockedStep(stock, items, i);
      newStock := newStock[item.materialId := newStock[item.materialId] + item.quantity];
      newLogs := newLogs + [ReceiptLog(po, item, actor)];
      i := i + 1;
    }
    assert items[..i] == items;
    failed := None;
  }

  // ---------------------------------------------------------------- the store

  class PurchaseOrderStore {
    var orders: map<nat, PurchaseOrder>
    /** raw_materials.stock by material id */
    var stock: map<int, int>
    var logs: seq<StockLog>
    /** next auto-increment id of purchase_orders */
    var nextId: nat
    /** stock of each material before the first ledger row */
    ghost var opening: map<int, int>

    /**
     * Every order is stored under its own id below `nextId` with the
     * subtotals create/update compute, and every material's stock is its
     * opening stock plus the net movement its ledger rows record. (The total
     * need not match the rows: an update may send one; see MergedTotal.)
     */
    ghost predicate Valid()
      reads this
    {
      && (forall id :: id in orders ==> id < nextId && orders[id].id == id && RowsPriced(orders[id]))
      && Ledger(opening, stock, logs)
    }

    constructor (materials: map<int, int>)
      ensures Valid()
      ensures orders == map[] && stock == materials && logs == [] && nextId == 1
    {
      orders, stock, logs, nextId := map[], materials, [], 1;
      opening := materials;
    }

    /** `getPurchaseOrderById`: the order, or None for the 404 answer. */
    function FindById(id: nat): (r: Option<PurchaseOrder>)
      reads this
      ensures r.Some? <==> id in orders
      ensures r.Some? ==> r.value == orders[id]
    {
      if id in orders then Some(orders[id]) else None
    }

    /**
     * `createPurchaseOrder`. `generated` stands for `generateOrderNumber('PO')`.
     * A `total` or `created_by` in the body is overwritten by the computed
     * total and the signed-in user.
     */
    method Create(body: OrderBody, items: Option<seq<ItemInput>>, actor: int, generated: string)
      returns (r: Response, id: nat)
      requires Valid()
      modifies this
      ensures Valid()
      ensures items.None? ==> r == Error(ItemsNotIterable) && unchanged(this)
      ensures items.Some? ==>
        && r == Success(201, "Purchase order created successfully")
        && id == old(nextId) && id !in old(orders) && nextId == old(nextId) + 1
        && orders == old(orders)[id := PurchaseOrder(id, CreatedHeader(body, generated),
                                                      LineValue(items.value), actor, Priced(items.value))]
        && FindById(id).Some? && WellPriced(FindById(id).value)
        && stock == old(stock) && logs == old(logs)
    {
      id := nextId;
      if items.None? {
        // `for (const item of items)` throws a TypeError; the transaction is rolled back.
        return Error(ItemsNotIterable), id;
      }
      var orderData := CreatedHeader(body, generated);
      var rows, total := PriceItems(items.value);
      PricedIsWellPriced(id, orderData, actor, items.value);
      orders := orders[id := PurchaseOrder(id, orderData, total, actor, rows)];
      nextId := nextId + 1;
      r := Success(201, "Purchase order created successfully");
    }

    /**
     * `updatePurchaseOrder`: the columns the body carries are written (Merged);
     * supplied items replace the old rows entirely and set the total to their sum.
     */
    method Update(id: nat, body: OrderBody, items: Option<seq<ItemInput>>) returns (r: Response)
      requires Valid()
      modifies this
      ensures Valid()
      ensures old(FindById(id)).None? ==> r == NotFound && unchanged(this)
      ensures old(id in orders && !CanUpdate(orders[id].data.status)) ==>
        r == Failure(400, "Cannot update purchase order with status received or cancelled") && unchanged(this)
      ensures old(id in orders && CanUpdate(orders[id].data.status)) ==>
        && r == Success(200, "Purchase order updated successfully")
        && orders == old(orders)[id := if items.Some?
                                       then Merged(old(orders[id]), body).(items := Priced(items.value), total := LineValue(items.value))
                                       else Merged(old(orders[id]), body)]
        && (items.Some? || (body.total.None? && old(WellPriced(orders[id]))) ==> WellPriced(orders[id]))
        && stock == old(stock) && logs == old(logs) && nextId == old(nextId)
    {
      if id !in orders {
        return NotFound;
      }
      var po := orders[id];
      if !CanUpdate(po.data.status) {
        return Failure(400, "Cannot update purchase order with status received or cancelled");
      }
      MergedTotal(po, body, if items.Some? then items.value else []);
      po := Merged(po, body);
      if items.Some? {
        var rows, total := PriceItems(items.value);
        po := po.(items := rows, total := total);
      }
      orders := orders[id := po];
      r := Success(200, "Purchase order updated successfully");
    }

    /** `deletePurchaseOrder`: the row and (by cascade) its items go. */
    method Delete(id: nat) returns (r: Response)
      requires Valid()
      modifies this
      ensures Valid()
      ensures old(FindById(id)).None? ==> r == NotFound && unchanged(this)
      ensures old(id in orders && !CanDelete(orders[id].data.status)) ==>
        r == Failure(400, "Cannot delete purchase order with status received") && unchanged(this)
      ensures old(id in orders && CanDelete(orders[id].data.status)) ==>
        && r == Success(200, "Purchase order deleted successfully")
        && orders == old(orders) - {id}
        && stock == old(stock) && logs == old(logs) && nextId == old(nextId)
    {
      if id !in orders {
        return NotFound;
      }
      if !CanDelete(orders[id].data.status) {
        return Failure(400, "Cannot delete purchase order with status received");
      }
      orders := orders - {id};
      r := Success(200, "Purchase order deleted successfully");
    }

    /**
     * `receivePurchaseOrder`: for each item in order an 'in' movement of its
     * quantity and one ledger row, then the status becomes received. Nothing
     * persists when the order is missing, not approved, or a stock update throws.
     */
    method Receive(id: nat, actor: int) returns (r: Response)
      requires Valid()
      modifies this
      ensures Valid()
      ensures old(FindById(id)).None? ==> r == NotFound && unchanged(this)
      ensures old(id in orders && !CanReceive(orders[id].data.status)) ==>
        r == Failure(400, "Cannot receive purchase order with status not approved") && unchanged(this)
      ensures old(id in orders && CanReceive(orders[id].data.status) && !AllStocked(stock, orders[id].items)) ==>
        r.Error? && r.cause.StockUpdateFailed? && unchanged(this)
      ensures old(id in orders && CanReceive(orders[id].data.status) && AllStocked(stock, orders[id].items)) ==>
        && r == Success(200, "Purchase order received successfully")
        && Some(stock) == StockIn(old(stock), old(orders[id].items))
        && logs == old(logs) + ReceiptLogs(old(orders[id]), old(orders[id].items), actor)
        && orders == old(orders)[id := old(orders[id]).(data := old(orders[id].data).(status := Received))]
        && nextId == old(nextId)
    {
      if id !in orders {
        return NotFound;
      }
      var po := orders[id];
      if !CanReceive(po.data.status) {
        return Failure(400, "Cannot receive purchase order with status not approved");
      }
      var failed, newStock, newLogs := ApplyReceipt(stock, logs, po, actor);
      if failed.Some? {
        // updateStock throws; the transaction is rolled back.
        return Error(StockUpdateFailed(failed.value));
      }
      LedgerAfterReceipt(opening, stock, logs, po, actor);
      stock, logs := newStock, newLogs;
      orders := orders[id := po.(data := po.data.(status := Received))];
      r := Success(200, "Purchase order received successfully");
    }

    /** `approvePurchaseOrder`. */
    method Approve(id: nat) returns (r: Response)
      requires Valid()
      modifies this
      ensures Valid()
      ensures old(FindById(id)).None? ==> r == NotFound && unchanged(this)
      ensures old(id in orders && !CanApprove(orders[id].data.status)) ==>
        r == Failure(400, "Cannot approve purchase order with status not pending") && unchanged(this)
      ensures old(id in orders && CanApprove(orders[id].data.status)) ==>
        && r == Success(200, "Purchase order approved successfully")
        && orders == old(orders)[id := old(orders[id]).(data := old(orders[id].data).(status := Approved))]
        && stock == old(stock) && logs == old(logs) && nextId == old(nextId)
    {
      if id !in orders {
        return NotFound;
      }
      var po := orders[id];
      if !CanApprove(po.data.status) {
        return Failure(400, "Cannot approve purchase order with status not pending");
      }
      orders := orders[id := po.(data := po.data.(status := Approved))];
      r := Success(200, "Purchase order approved successfully");
    }

    /** `cancelPurchaseOrder`: any status but received, cancelled included, becomes cancelled. */
    method Cancel(id: nat) returns (r: Response)
      requires Valid()
      modifies this
      ensures Valid()
      ensures old(FindById(id)).None? ==> r == NotFound && unchanged(this)
      ensures old(id in orders && !CanCancel(orders[id].data.status)) ==>
        r == Failure(400, "Cannot cancel purchase order with status received") && unchanged(this)
      ensures old(id in orders && CanCancel(orders[id].data.status)) ==>
        && r == Success(200, "Purchase order cancelled successfully")
        && orders == old(orders)[id := old(orders[id]).(data := old(orders[id].data).(status := Cancelled))]
        && stock == old(stock) && logs == old(logs) && nextId == old(nextId)
    {
      if id !in orders {
        return NotFound;
      }
      var po := orders[id];
      if !CanCancel(po.data.status) {
        return Failure(400, "Cannot cancel purchase order with status received");
      }
      orders := orders[id := po.(data := po.data.(status := Cancelled))];
      r := Success(200, "Purchase order cancelled successfully");
    }
  }

  /**
   * Receiving is guarded only by the status: a second receive of the same
   * order fails with 400 and the stock is raised once.
   */
  method ReceiveTwice(store: PurchaseOrderStore, id: nat, actor: int) returns (first: Response, second: Response)
    requires store.Valid()
    modifies store
    ensures store.Valid()
    ensures first.Success? && id in old(store.orders) ==>
      && second == Failure(400, "Cannot receive purchase order with status not approved")
      && store.stock.Keys == old(store.stock).Keys
      && forall m :: m in store.stock ==> store.stock[m] == old(store.stock)[m] + QuantityOf(old(store.orders[id].items), m)
  {
    ghost var before, items := store.stock, if id in store.orders then store.orders[id].items else [];
    first := store.Receive(id, actor);
    second := store.Receive(id, actor);
    if first.Success? && id in old(store.orders) {
      StockInEffect(before, items);
    }
  }
}
