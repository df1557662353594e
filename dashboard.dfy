/**
 * The dashboard of the browser app (frontend/src/pages/dashboard/Dashboard.jsx):
 * the stock-by-category chart data built from the stock summary's material and
 * product lists, and the summary cards. The fetch calls are left out; their
 * results are the inputs.
 */
module Dashboard {
  import opened Wrappers

  /** A material or product row of the stock summary; a null field is None. */
  datatype Material = Material(category: Option<string>, stock: Option<int>)
  datatype Product = Product(productType: Option<string>, stock: Option<int>)

  /** A `{ name, value }` entry of the chart data, and a key/amount pair while grouping. */
  datatype Entry = Entry(name: string, value: int)

  const OtherMaterials := "Bahan Baku Lainnya"
  const OtherProducts := "Produk Lainnya"
  const Placeholder := Entry("Tidak Ada Data", 0)

  /** `parseInt(item.stock || 0)` for an integral stock: a missing stock counts 0. */
  function StockOf(stock: Option<int>): int {
    if stock.None? then 0 else stock.value
  }

  /** The key and amount a material contributes: its category, or the catch-all when it has none. */
  function MaterialEntry(m: Material): Entry {
    Entry(if m.category.None? || m.category.value == "" then OtherMaterials else m.category.value, StockOf(m.stock))
  }

  /** The key and amount a product contributes: Sendal, Boot, or the catch-all. */
  function ProductEntry(p: Product): Entry {
    Entry(if p.productType == Some("sendal") then "Sendal"
          else if p.productType == Some("boot") then "Boot"
          else OtherProducts,
          StockOf(p.stock))
  }

  function MaterialEntries(materials: Option<seq<Material>>): (r: seq<Entry>)
    ensures materials.None? ==> r == []
    ensures materials.Some? ==> |r| == |materials.value| &&
                                (forall k :: 0 <= k < |r| ==> r[k] == MaterialEntry(materials.value[k]))
  {
    if materials.None? then []
    else seq(|materials.value|, k requires 0 <= k < |materials.value| => MaterialEntry(materials.value[k]))
  }

  function ProductEntries(products: Option<seq<Product>>): (r: seq<Entry>)
    ensures products.None? ==> r == []
    ensures products.Some? ==> |r| == |products.value| &&
                               (forall k :: 0 <= k < |r| ==> r[k] == ProductEntry(products.value[k]))
  {
    if products.None? then []
    else seq(|products.value|, k requires 0 <= k < |products.value| => ProductEntry(products.value[k]))
  }

  // ---------------------------------------------------------------- grouping

  /** The position of the entry with that name, or the length when there is none. */
  function FindName(groups: seq<Entry>, key: string): (r: nat)
    ensures r <= |groups|
    ensures r < |groups| ==> groups[r].name == key
    ensures forall k :: 0 <= k < r ==> groups[k].name != key
  {
    if groups == [] then 0 else if groups[0].name == key then 0 else 1 + FindName(groups[1..], key)
  }

  /** `dict[key] = (dict[key] || 0) + amount` on an insertion-ordered dictionary. */
  function Add(groups: seq<Entry>, key: string, amount: int): seq<Entry> {
    var i := FindName(groups, key);
    if i < |groups| then groups[i := Entry(key, groups[i].value + amount)] else groups + [Entry(key, amount)]
  }

  /** The dictionary after adding every entry in order. */
  function Group(entries: seq<Entry>): seq<Entry> {
    if entries == [] then []
    else var last := entries[|entries| - 1];
         Add(Group(entries[..|entries| - 1]), last.name, last.value)
  }

  function Total(groups: seq<Entry>): int {
    if groups == [] then 0 else Total(groups[..|groups| - 1]) + groups[|groups| - 1].value
  }

  predicate Distinct(groups: seq<Entry>) {
    forall i, j :: 0 <= i < j < |groups| ==> groups[i].name != groups[j].name
  }

  function NameSet(groups: seq<Entry>): set<string> {
    set e | e in groups :: e.name
  }

  /** The independent reading: the sum of the amounts of the entries with that key. */
  function KeyTotal(entries: seq<Entry>, key: string): int {
    if entries == [] then 0
    else KeyTotal(entries[..|entries| - 1], key) + (if entries[|entries| - 1].name == key then entries[|entries| - 1].value else 0)
  }

  lemma {:induction false} TotalUpdate(groups: seq<Entry>, i: nat, e: Entry)
    requires i < |groups|
    ensures Total(groups[i := e]) == Total(groups) - groups[i].value + e.value
    decreases |groups|
  {
    var n := |groups|;
    if i < n - 1 {
      assert groups[i := e][..n - 1] == groups[..n - 1][i := e];
      TotalUpdate(groups[..n - 1], i, e);
    } else {
      assert groups[i := e][..n - 1] == groups[..n - 1];
    }
  }

  lemma {:induction false} TotalAppend(a: seq<Entry>, b: seq<Entry>)
    ensures Total(a + b) == Total(a) + Total(b)
    decreases |b|
  {
    if b == [] {
      assert a + b == a;
    } else {
      assert (a + b)[..|a + b| - 1] == a + b[..|b| - 1];
      TotalAppend(a, b[..|b| - 1]);
    }
  }

  /** The grouping invariant: one entry per key, each holding that key's sum. */
  ghost predicate Grouped(groups: seq<Entry>, entries: seq<Entry>) {
    && Distinct(groups)
    && NameSet(groups) == (set e | e in entries :: e.name)
    && (forall k :: 0 <= k < |groups| ==> groups[k].value == KeyTotal(entries, groups[k].name))
    && Total(groups) == Total(entries)
  }

  /** How the key sums change by one more entry. */
  lemma KeyTotalSnoc(init: seq<Entry>, last: Entry, key: string)
    ensures KeyTotal(init + [last], key) == KeyTotal(init, key) + (if last.name == key then last.value else 0)
  {
    assert (init + [last])[..|init|] == init;
  }

  lemma NamesSnoc(init: seq<Entry>, last: Entry)
    ensures (set e | e in init + [last] :: e.name) == (set e | e in init :: e.name) + {last.name}
  {
    assert forall e :: e in init + [last] <==> e in init || e == last;
  }

  /** Adding under a key already present: names stay, that key's entry grows. */
  lemma AddExisting(groups: seq<Entry>, init: seq<Entry>, last: Entry, i: nat)
    requires Grouped(groups, init)
    requires i < |groups| && groups[i].name == last.name
    ensures Grouped(groups[i := Entry(last.name, groups[i].value + last.value)], init + [last])
  {
    var r := groups[i := Entry(last.name, groups[i].value + last.value)];
    TotalUpdate(groups, i, r[i]);
    TotalAppend(init, [last]);
    assert Total([last]) == last.value;
    NamesSnoc(init, last);
    assert groups[i] in groups;
    assert NameSet(r) == NameSet(groups) by {
      forall x | x in NameSet(r) ensures x in NameSet(groups) {
        var e :| e in r && e.name == x;
        var k :| 0 <= k < |r| && r[k] == e;
        assert groups[k] in groups;
      }
      forall x | x in NameSet(groups) ensures x in NameSet(r) {
        var e :| e in groups && e.name == x;
        var k :| 0 <= k < |groups| && groups[k] == e;
        assert r[k] in r;
      }
    }
    forall k | 0 <= k < |r| ensures r[k].value == KeyTotal(init + [last], r[k].name) {
      KeyTotalSnoc(init, last, r[k].name);
    }
  }

  /** Adding under a new key: it is appended with the entry's amount. */
  lemma AddNew(groups: seq<Entry>, init: seq<Entry>, last: Entry)
    requires Grouped(groups, init)
    requires forall k :: 0 <= k < |groups| ==> groups[k].name != last.name
    ensures Grouped(groups + [last], init + [last])
  {
    var r := groups + [last];
    TotalAppend(groups, [last]);
    TotalAppend(init, [last]);
    assert Total([last]) == last.value;
    NamesSnoc(init, last);
    NamesSnoc(groups, last);
    assert last.name !in NameSet(groups) by {
      forall e | e in groups ensures e.name != last.name {
        var k :| 0 <= k < |groups| && groups[k] == e;
      }
    }
    KeyTotalAbsent(init, last.name);
    AddNewValues(groups, init, last);
  }

  /** The values after appending a new key: the old groups keep their sums, the new one has the entry's amount. */
  lemma AddNewValues(groups: seq<Entry>, init: seq<Entry>, last: Entry)
    requires forall k :: 0 <= k < |groups| ==> groups[k].value == KeyTotal(init, groups[k].name)
    requires forall k :: 0 <= k < |groups| ==> groups[k].name != last.name
    requires KeyTotal(init, last.name) == 0
    ensures forall k :: 0 <= k < |groups + [last]| ==>
              (groups + [last])[k].value == KeyTotal(init + [last], (groups + [last])[k].name)
  {
    var r := groups + [last];
    forall k | 0 <= k < |r| ensures r[k].value == KeyTotal(init + [last], r[k].name) {
      KeyTotalSnoc(init, last, r[k].name);
    }
  }

  lemma AddKeepsGrouped(groups: seq<Entry>, init: seq<Entry>, last: Entry)
    requires Grouped(groups, init)
    ensures Grouped(Add(groups, last.name, last.value), init + [last])
  {
    var i := FindName(groups, last.name);
    if i < |groups| {
      AddExisting(groups, init, last, i);
    } else {
      assert Entry(last.name, last.value) == last;
      AddNew(groups, init, last);
    }
  }

  /** A key that no entry carries sums to 0. */
  lemma {:induction false} KeyTotalAbsent(entries: seq<Entry>, key: string)
    requires key !in (set e | e in entries :: e.name)
    ensures KeyTotal(entries, key) == 0
    decreases |entries|
  {
    if entries != [] {
      var init := entries[..|entries| - 1];
      assert entries[|entries| - 1] in entries;
      assert key !in (set e | e in init :: e.name) by {
        forall e | e in init ensures e.name != key {
          assert e in entries;
        }
      }
      KeyTotalAbsent(init, key);
    }
  }

  /**
   * Grouping keeps one entry per key, whose value is the
   * sum of that key's amounts; nothing is lost from the total.
   */
  lemma {:induction false} GroupSpec(entries: seq<Entry>)
    ensures Grouped(Group(entries), entries)
    ensures Group(entries) == [] <==> entries == []
  {
    if entries != [] {
      var init, last := entries[..|entries| - 1], entries[|entries| - 1];
      GroupSpec(init);
      assert entries == init + [last];
      AddKeepsGrouped(Group(init), init, last);
      assert last.name in NameSet(Group(entries));
    }
  }

  /** The grouping loop `forEach(item => dict[key] = (dict[key] || 0) + amount)`. */
  method GroupInto(entries: seq<Entry>) returns (groups: seq<Entry>)
    ensures groups == Group(entries)
  {
    groups := [];
    var i := 0;
    while i < |entries|
      invariant 0 <= i <= |entries|
      invariant groups == Group(entries[..i])
    {
      assert entries[..i + 1][..i] == entries[..i];
      groups := Add(groups, entries[i].name, entries[i].value);
      i := i + 1;
    }
    assert entries[..|entries|] == entries;
  }

  // ---------------------------------------------------------------- chart data

  /** The chart data: material categories, then product types, or the placeholder when both are empty. */
  function CategoryData(materials: Option<seq<Material>>, products: Option<seq<Product>>): seq<Entry> {
    var combined := Group(MaterialEntries(materials)) + Group(ProductEntries(products));
    if combined == [] then [Placeholder] else combined
  }

  /** The total stock of a list: the sum of every item's stock, a missing one as 0. */
  function MaterialStock(materials: Option<seq<Material>>): int {
    Total(MaterialEntries(materials))
  }

  function ProductStock(products: Option<seq<Product>>): int {
    Total(ProductEntries(products))
  }

  /** The grouping loops and the pushes of the effect that prepares `stockByCategory`. */
  method StockByCategory(materials: Option<seq<Material>>, products: Option<seq<Product>>) returns (categoryData: seq<Entry>)
    ensures categoryData == CategoryData(materials, products)
  {
    var me, pe := MaterialEntries(materials), ProductEntries(products);
    var materialCategories: seq<Entry> := [];
    if materials.Some? && |materials.value| > 0 {
      materialCategories := GroupInto(me);
    } else {
      assert me == [];
    }
    var productTypes: seq<Entry> := [];
    if products.Some? && |products.value| > 0 {
      productTypes := GroupInto(pe);
    } else {
      assert pe == [];
    }
    assert materialCategories == Group(me) && productTypes == Group(pe);
    categoryData := PushAll([], materialCategories);
    categoryData := PushAll(categoryData, productTypes);
    assert categoryData == Group(me) + Group(pe);
    if |categoryData| == 0 {
      categoryData := categoryData + [Placeholder];
    }
  }

  /** `Object.keys(dict).forEach(key => data.push({ name: key, value: dict[key] }))`. */
  method PushAll(data: seq<Entry>, dict: seq<Entry>) returns (r: seq<Entry>)
    ensures r == data + dict
  {
    r := data;
    var i := 0;
    while i < |dict|
      invariant 0 <= i <= |dict|
      invariant r == data + dict[..i]
    {
      r := r + [dict[i]];
      assert dict[..i + 1] == dict[..i] + [dict[i]];
      i := i + 1;
    }
    assert dict[..|dict|] == dict;
  }

  /**
   * The chart lists each material category once, with the sum of that
   * category's stock, ahead of the product types, each of which is Sendal,
   * Boot or the catch-all; its values add up to the total material and product
   * stock; and it is the lone placeholder when there is no material and no
   * product, and otherwise exactly the two groupings.
   */
  lemma CategoryDataSpec(materials: Option<seq<Material>>, products: Option<seq<Product>>)
    ensures var groups := Group(MaterialEntries(materials));
            && Distinct(groups)
            && (forall k :: 0 <= k < |groups| ==> groups[k].value == KeyTotal(MaterialEntries(materials), groups[k].name))
            && NameSet(groups) == (set m | m in MaterialEntries(materials) :: m.name)
            && (groups != [] ==> CategoryData(materials, products)[..|groups|] == groups)
    ensures Distinct(Group(ProductEntries(products)))
    ensures NameSet(Group(ProductEntries(products))) <= {"Sendal", "Boot", OtherProducts}
    ensures Total(CategoryData(materials, products)) == MaterialStock(materials) + ProductStock(products)
    ensures MaterialEntries(materials) == [] && ProductEntries(products) == [] ==>
              CategoryData(materials, products) == [Placeholder]
    ensures MaterialEntries(materials) != [] || ProductEntries(products) != [] ==>
              CategoryData(materials, products) == Group(MaterialEntries(materials)) + Group(ProductEntries(products))
  {
    var me, pe := MaterialEntries(materials), ProductEntries(products);
    GroupSpec(me);
    GroupSpec(pe);
    CategoryTotal(materials, products);
    assert (set e | e in pe :: e.name) <= {"Sendal", "Boot", OtherProducts};
  }

  /** The chart's values add up to the whole stock of both lists. */
  lemma CategoryTotal(materials: Option<seq<Material>>, products: Option<seq<Product>>)
    ensures Total(CategoryData(materials, products)) == MaterialStock(materials) + ProductStock(products)
  {
    var me, pe := MaterialEntries(materials), ProductEntries(products);
    GroupSpec(me);
    GroupSpec(pe);
    TotalAppend(Group(me), Group(pe));
    assert Total([Placeholder]) == 0;
  }

  // ---------------------------------------------------------------- cards

  /** The `dashboard_summary` fields the cards read; a missing field is None. */
  datatype Summary = Summary(totalMaterials: Option<int>, totalProducts: Option<int>,
                             lowStockMaterials: Option<int>, lowStockProducts: Option<int>,
                             totalMaterialStock: Option<int>, totalProductStock: Option<int>)

  /** `x || 0` on a number. */
  function OrZero(x: Option<int>): int {
    if x.None? then 0 else x.value
  }

  /** The four card values: total materials, total products, low stock, total stock. */
  function Cards(s: Summary): seq<int> {
    [OrZero(s.totalMaterials), OrZero(s.totalProducts),
     OrZero(s.lowStockMaterials) + OrZero(s.lowStockProducts),
     OrZero(s.totalMaterialStock) + OrZero(s.totalProductStock)]
  }

  /**
   * Four cards: the material and product counts, each 0 when missing; the
   * low-stock card adds the two low-stock counts and the total-stock card the
   * two stock totals, a missing one counting 0; when the stock totals are
   * the totals of the lists, the total-stock card equals the sum of the
   * chart's values.
   */
  lemma CardsSpec(s: Summary, materials: Option<seq<Material>>, products: Option<seq<Product>>)
    ensures |Cards(s)| == 4
    ensures s.totalMaterials.None? ==> Cards(s)[0] == 0
    ensures s.totalMaterials.Some? ==> Cards(s)[0] == s.totalMaterials.value
    ensures s.totalProducts.None? ==> Cards(s)[1] == 0
    ensures s.totalProducts.Some? ==> Cards(s)[1] == s.totalProducts.value
    ensures Cards(s)[2] == OrZero(s.lowStockMaterials) + OrZero(s.lowStockProducts)
    ensures Cards(s)[3] == OrZero(s.totalMaterialStock) + OrZero(s.totalProductStock)
    ensures Cards(Summary(None, None, None, None, None, None)) == [0, 0, 0, 0]
    ensures s.totalMaterialStock == Some(MaterialStock(materials)) && s.totalProductStock == Some(ProductStock(products)) ==>
              Cards(s)[3] == Total(CategoryData(materials, products))
  {
    CategoryTotal(materials, products);
  }
}
