/**
 * The line-item table of the purchase-order form
 * (frontend/src/components/forms/POForm.jsx) and of the sales-order form
 * (frontend/src/components/forms/SalesOrderForm.jsx). Both forms run the
 * same item code; the PO form picks materials, the SO form products, and
 * `itemId` stands for `material_id` or `product_id`.
 *
 * A quantity or price comes from an InputNumber and is null once cleared. In
 * JavaScript `null * x` is 0 and `null > x` compares 0, which `Num` models.
 */
module OrderForm {
  import opened Wrappers
  import PoController

  /** A material or product the item select offers. */
  datatype CatalogueEntry = CatalogueEntry(id: int, name: string, unitPrice: Option<int>, stock: int, minStock: int)

  /** One row of the item table; `key` tells rows apart (a timestamp or the stored item id). */
  datatype LineItem = LineItem(key: int, itemId: Option<int>, quantity: Option<int>, price: Option<int>, subtotal: int)

  /** A stored order item handed in through `initialValues.items`. */
  datatype StoredItem = StoredItem(id: int, itemId: int, quantity: int, price: int, subtotal: int)

  /** An onChange event of one row: the item select, or one of the numeric inputs. */
  datatype Edit = SetItem(id: int) | SetQuantity(quantity: Option<int>) | SetPrice(price: Option<int>)

  /** An item as submitted, without its key; the checks guarantee every field is present. */
  datatype SubmittedItem = SubmittedItem(itemId: int, quantity: int, price: int, subtotal: int)

  datatype SubmitError = NoItems | MissingItem | InvalidQuantity | InvalidPrice(itemName: string)

  datatype SubmitResult = Rejected(error: SubmitError) | Submitted(items: seq<SubmittedItem>)

  /** A numeric input as arithmetic and comparison see it: null counts as 0. */
  function Num(x: Option<int>): int {
    x.GetOr(0)
  }

  function Times(quantity: Option<int>, price: Option<int>): int {
    Num(quantity) * Num(price)
  }

  /** `catalogue.find(e => e.id === id)`: the first entry with the id. */
  function Find(catalogue: seq<CatalogueEntry>, id: int): (r: Option<CatalogueEntry>)
    ensures r.Some? ==> r.value in catalogue && r.value.id == id
    ensures r.Some? ==> exists k :: 0 <= k < |catalogue| && catalogue[k] == r.value &&
                                   forall j :: 0 <= j < k ==> catalogue[j].id != id
    ensures r.None? ==> forall k :: 0 <= k < |catalogue| ==> catalogue[k].id != id
  {
    if catalogue == [] then None
    else if catalogue[0].id == id then Some(catalogue[0])
    else Find(catalogue[1..], id)
  }

  /** Every row's subtotal is its quantity times its price. */
  predicate Consistent(items: seq<LineItem>) {
    forall k :: 0 <= k < |items| ==> items[k].subtotal == Times(items[k].quantity, items[k].price)
  }

  /** `items.reduce((sum, item) => sum + item.subtotal, 0)`, the total shown under the table. */
  function Total(items: seq<LineItem>): int {
    if items == [] then 0 else Total(items[..|items| - 1]) + items[|items| - 1].subtotal
  }

  // ---------------------------------------------------------------- editing

  /** The row `handleAddItem` appends. */
  function NewItem(key: int): LineItem {
    LineItem(key, None, Some(1), Some(0), 0)
  }

  /** `items.filter(item => item.key !== key)`. */
  function Without(items: seq<LineItem>, key: int): (r: seq<LineItem>)
    ensures |r| <= |items|
    ensures forall k :: 0 <= k < |r| ==> r[k].key != key && r[k] in items
  {
    if items == [] then []
    else if items[0].key == key then Without(items[1..], key)
    else [items[0]] + Without(items[1..], key)
  }

  /** `items.findIndex(item => item.key === key)`: the first row with the key, or -1. */
  function KeyIndex(items: seq<LineItem>, key: int): (i: int)
    ensures -1 <= i < |items|
    ensures i == -1 <==> forall k :: 0 <= k < |items| ==> items[k].key != key
    ensures i >= 0 ==> items[i].key == key && forall k :: 0 <= k < i ==> items[k].key != key
  {
    if items == [] then -1
    else if items[0].key == key then 0
    else var j := KeyIndex(items[1..], key); if j == -1 then -1 else j + 1
  }

  /** One row after an onChange event: selecting an item imports its unit price when it has one. */
  function Edited(item: LineItem, edit: Edit, catalogue: seq<CatalogueEntry>): LineItem {
    match edit
    case SetItem(id) =>
      var selected := item.(itemId := Some(id));
      (match Find(catalogue, id)
       case Some(entry) =>
         if entry.unitPrice.Some? then selected.(price := entry.unitPrice, subtotal := Times(selected.quantity, entry.unitPrice))
         else selected
       case None => selected)
    case SetQuantity(q) => item.(quantity := q, subtotal := Times(q, item.price))
    case SetPrice(p) => item.(price := p, subtotal := Times(item.quantity, p))
  }

  /** The table after `handleItemChange(key, ...)`. */
  function ItemsChanged(items: seq<LineItem>, key: int, edit: Edit, catalogue: seq<CatalogueEntry>): seq<LineItem> {
    var i := KeyIndex(items, key);
    if i == -1 then items else items[i := Edited(items[i], edit, catalogue)]
  }

  /** The rows `useEffect` builds from `initialValues.items`. */
  function Loaded(stored: seq<StoredItem>): (items: seq<LineItem>)
    ensures |items| == |stored|
  {
    seq(|stored|, k requires 0 <= k < |stored| =>
      LineItem(stored[k].id, Some(stored[k].itemId), Some(stored[k].quantity), Some(stored[k].price), stored[k].subtotal))
  }

  /** The component state of one form: its item rows, and the list the select offers. */
  class ItemTable {
    var items: seq<LineItem>
    const catalogue: seq<CatalogueEntry>

    constructor (catalogue: seq<CatalogueEntry>)
      ensures items == [] && this.catalogue == catalogue
    {
      items := [];
      this.catalogue := catalogue;
    }

    /** The `useEffect` on `initialValues`: rows are replaced only when the initial values carry items. */
    method Load(stored: Option<seq<StoredItem>>)
      modifies this
      ensures items == if stored.Some? then Loaded(stored.value) else old(items)
    {
      if stored.Some? {
        items := Loaded(stored.value);
      }
    }

    /** `handleAddItem`; `key` stands for `Date.now()`. */
    method AddItem(key: int)
      modifies this
      ensures items == old(items) + [NewItem(key)]
    {
      items := items + [NewItem(key)];
    }

    /** `handleRemoveItem`. */
    method RemoveItem(key: int)
      modifies this
      ensures items == Without(old(items), key)
    {
      items := Without(items, key);
    }

    /** `handleItemChange`: a copy of the rows, the first row with the key rewritten, and nothing else. */
    method ChangeItem(key: int, edit: Edit)
      modifies this
      ensures items == ItemsChanged(old(items), key, edit, catalogue)
    {
      var newItems := items;
      var index := -1;
      var j := 0;
      while j < |newItems| && index == -1
        invariant 0 <= j <= |newItems|
        invariant index == -1 ==> forall k :: 0 <= k < j ==> newItems[k].key != key
        invariant index != -1 ==> index == KeyIndex(newItems, key)
      {
        if newItems[j].key == key {
          index := j;
        }
        j := j + 1;
      }
      if index != -1 {
        newItems := newItems[index := Edited(newItems[index], edit, catalogue)];
        items := newItems;
      }
    }
  }

  // ---------------------------------------------------------------- submitting

  /** What the checks of `handleSubmit` say about one row, in their order; None when it passes. */
  function Problem(item: LineItem, catalogue: seq<CatalogueEntry>): Option<SubmitError> {
    if item.itemId.None? || item.itemId.value == 0 then Some(MissingItem)
    else if item.quantity.None? || item.quantity.value < 1 then Some(InvalidQuantity)
    else if item.price.None? then
      Some(InvalidPrice(match Find(catalogue, item.itemId.value)
                        case Some(e) => if e.name == "" then "Unknown" else e.name
                        case None => "Unknown"))
    else None
  }

  /** A row that passed the checks, without its key. */
  function Stripped(item: LineItem): SubmittedItem
    requires item.itemId.Some? && item.quantity.Some? && item.price.Some?
  {
    SubmittedItem(item.itemId.value, item.quantity.value, item.price.value, item.subtotal)
  }

  predicate AllPass(items: seq<LineItem>, catalogue: seq<CatalogueEntry>) {
    forall k :: 0 <= k < |items| ==> Problem(items[k], catalogue).None?
  }

  /** The `items` of the submitted values. */
  function Forwarded(items: seq<LineItem>, catalogue: seq<CatalogueEntry>): (r: seq<SubmittedItem>)
    requires AllPass(items, catalogue)
    ensures |r| == |items|
  {
    seq(|items|, k requires 0 <= k < |items| => assert Problem(items[k], catalogue).None?; Stripped(items[k]))
  }

  /**
   * `handleSubmit`: an empty table is rejected, then the rows are checked in
   * order and the first failing row's problem is reported; when all pass the
   * rows are forwarded, in order, without their keys.
   */
  method Submit(items: seq<LineItem>, catalogue: seq<CatalogueEntry>) returns (r: SubmitResult)
    ensures r == Rejected(NoItems) <==> items == []
    ensures r.Submitted? <==> items != [] && AllPass(items, catalogue)
    ensures r.Submitted? ==> r.items == Forwarded(items, catalogue)
    ensures r.Rejected? && items != [] ==>
              exists k :: 0 <= k < |items| && (forall j :: 0 <= j < k ==> Problem(items[j], catalogue).None?)
                          && Problem(items[k], catalogue) == Some(r.error)
  {
    if |items| == 0 {
      return Rejected(NoItems);
    }
    var i := 0;
    while i < |items|
      invariant 0 <= i <= |items|
      invariant forall j :: 0 <= j < i ==> Problem(items[j], catalogue).None?
    {
      var problem := Problem(items[i], catalogue);
      if problem.Some? {
        assert problem.value != NoItems;
        return Rejected(problem.value);
      }
      i := i + 1;
    }
    r := Submitted(Forwarded(items, catalogue));
  }

  // ---------------------------------------------------------------- stock column (SO form)

  /** `record.quantity > product.stock` for the row's product; no product, no warning. */
  predicate OverStock(item: LineItem, catalogue: seq<CatalogueEntry>) {
    item.itemId.Some? && Find(catalogue, item.itemId.value).Some? &&
    Num(item.quantity) > Find(catalogue, item.itemId.value).value.stock
  }

  /** The shortfall printed in the warning: quantity minus stock. */
  function Deficit(item: LineItem, product: CatalogueEntry): int {
    Num(item.quantity) - product.stock
  }

  datatype Colour = Red | Amber | Green

  /** Colour of the stock cell: red when over stock, amber under the minimum, green otherwise. */
  function StockColour(item: LineItem, product: CatalogueEntry): Colour {
    if Num(item.quantity) > product.stock then Red else if product.stock < product.minStock then Amber else Green
  }

  // ---------------------------------------------------------------- properties

  /** Adding a row keeps the total and the subtotal invariant. */
  lemma AddItemKeeps(items: seq<LineItem>, key: int)
    ensures Total(items + [NewItem(key)]) == Total(items)
    ensures Consistent(items) ==> Consistent(items + [NewItem(key)])
  {
    assert (items + [NewItem(key)])[..|items|] == items;
  }

  lemma {:induction false} WithoutMembers(items: seq<LineItem>, key: int, x: LineItem)
    ensures x in Without(items, key) <==> x in items && x.key != key
    decreases |items|
  {
    if items != [] {
      WithoutMembers(items[1..], key, x);
      assert items == [items[0]] + items[1..];
    }
  }

  /** Removing keeps the other rows in their order: it distributes over concatenation. */
  lemma {:induction false} WithoutAppend(a: seq<LineItem>, b: seq<LineItem>, key: int)
    ensures Without(a + b, key) == Without(a, key) + Without(b, key)
    decreases |a|
  {
    if a == [] {
      assert a + b == b;
    } else {
      assert (a + b)[1..] == a[1..] + b;
      WithoutAppend(a[1..], b, key);
    }
  }

  /** Removing a key no row has changes nothing. */
  lemma {:induction false} WithoutAbsent(items: seq<LineItem>, key: int)
    requires forall k :: 0 <= k < |items| ==> items[k].key != key
    ensures Without(items, key) == items
    decreases |items|
  {
    if items != [] {
      WithoutAbsent(items[1..], key);
      assert items == [items[0]] + items[1..];
    }
  }

  lemma {:induction false} WithoutConsistent(items: seq<LineItem>, key: int)
    requires Consistent(items)
    ensures Consistent(Without(items, key))
    decreases |items|
  {
    if items != [] {
      WithoutConsistent(items[1..], key);
    }
  }

  /** An edit touches the first row with the key and no other; an unknown key changes nothing. */
  lemma ChangeFrame(items: seq<LineItem>, key: int, edit: Edit, catalogue: seq<CatalogueEntry>)
    ensures var r := ItemsChanged(items, key, edit, catalogue);
            && |r| == |items|
            && (forall k :: 0 <= k < |items| && k != KeyIndex(items, key) ==> r[k] == items[k])
            && ((forall k :: 0 <= k < |items| ==> items[k].key != key) ==> r == items)
  {
  }

  /** A quantity or price edit sets that field and makes the subtotal quantity times price. */
  lemma ChangeNumberSubtotal(items: seq<LineItem>, key: int, edit: Edit, catalogue: seq<CatalogueEntry>)
    requires !edit.SetItem? && KeyIndex(items, key) >= 0
    ensures var i, r := KeyIndex(items, key), ItemsChanged(items, key, edit, catalogue);
            && r[i].subtotal == Times(r[i].quantity, r[i].price)
            && (edit.SetQuantity? ==> r[i].quantity == edit.quantity && r[i].price == items[i].price)
            && (edit.SetPrice? ==> r[i].price == edit.price && r[i].quantity == items[i].quantity)
            && r[i].key == items[i].key && r[i].itemId == items[i].itemId
  {
  }

  /**
   * Selecting an item whose catalogue entry has a unit price imports that
   * price and sets the subtotal to quantity times it; otherwise the price and
   * subtotal stay as they were.
   */
  lemma ChangeItemImportsPrice(items: seq<LineItem>, key: int, id: int, catalogue: seq<CatalogueEntry>)
    requires KeyIndex(items, key) >= 0
    ensures var i, r := KeyIndex(items, key), ItemsChanged(items, key, SetItem(id), catalogue);
            && r[i].itemId == Some(id) && r[i].quantity == items[i].quantity
            && (if Find(catalogue, id).Some? && Find(catalogue, id).value.unitPrice.Some?
                then r[i].price == Find(catalogue, id).value.unitPrice
                     && r[i].subtotal == Num(items[i].quantity) * Find(catalogue, id).value.unitPrice.value
                else r[i].price == items[i].price && r[i].subtotal == items[i].subtotal)
  {
  }

  /** Every edit keeps each subtotal equal to quantity times price. */
  lemma ChangeConsistent(items: seq<LineItem>, key: int, edit: Edit, catalogue: seq<CatalogueEntry>)
    requires Consistent(items)
    ensures Consistent(ItemsChanged(items, key, edit, catalogue))
  {
    var i := KeyIndex(items, key);
    if i >= 0 {
      assert items[i].subtotal == Times(items[i].quantity, items[i].price);
    }
  }

  /** Rows loaded from a stored order whose subtotals the server computed are consistent. */
  lemma LoadedConsistent(stored: seq<StoredItem>)
    requires forall k :: 0 <= k < |stored| ==> stored[k].subtotal == stored[k].quantity * stored[k].price
    ensures Consistent(Loaded(stored))
  {
  }

  /** The submitted PO items as the purchase-order controller receives them. */
  function AsPurchaseInputs(items: seq<SubmittedItem>): (r: seq<PoController.ItemInput>)
    ensures |r| == |items|
  {
    seq(|items|, k requires 0 <= k < |items| => PoController.ItemInput(items[k].itemId, items[k].quantity, items[k].price))
  }

  /**
   * The total the server stores for a submitted purchase order is the total
   * the form showed: the server recomputes quantity * price per item, and a
   * consistent table's subtotals are exactly those products.
   */
  lemma {:induction false} ServerTotalIsFormTotal(items: seq<LineItem>, catalogue: seq<CatalogueEntry>)
    requires AllPass(items, catalogue) && Consistent(items)
    ensures PoController.LineValue(AsPurchaseInputs(Forwarded(items, catalogue))) == Total(items)
    decreases |items|
  {
    if items != [] {
      var n := |items| - 1;
      var front := items[..n];
      assert AllPass(front, catalogue) && Consistent(front) by {
        assert forall k :: 0 <= k < n ==> front[k] == items[k];
      }
      ServerTotalIsFormTotal(front, catalogue);
      var inputs := AsPurchaseInputs(Forwarded(items, catalogue));
      assert inputs[..n] == AsPurchaseInputs(Forwarded(front, catalogue));
      assert inputs == inputs[..n] + [inputs[n]];
      PoController.LineValueSnoc(inputs[..n], inputs[n]);
      assert Problem(items[n], catalogue).None?;
    }
  }

  /** The warning and its red colour appear exactly when the shown deficit is positive. */
  lemma OverStockIsPositiveDeficit(item: LineItem, catalogue: seq<CatalogueEntry>)
    requires item.itemId.Some? && Find(catalogue, item.itemId.value).Some?
    ensures var product := Find(catalogue, item.itemId.value).value;
            && (OverStock(item, catalogue) <==> Deficit(item, product) > 0)
            && (OverStock(item, catalogue) <==> StockColour(item, product) == Red)
  {
  }
}
