/**
 * The stock-movement log page of the browser app
 * (frontend/src/pages/inventory/StockLogs.jsx): the filter map and its
 * updates, the page reset, the table's cell texts and the rows handed to the
 * CSV export. Dates arrive already formatted as 'YYYY-MM-DD' (dayjs is not
 * part of this model), and `formatDateTime` is a parameter.
 */
module StockLogs {
  import opened Wrappers
  import opened Text
  import PoController
  import Helpers
  import ListPage

  type Filters = map<string, string>

  /**
   * The filters after `handleFilterChange(key, value)`: undefined (None) or the
   * empty string removes the key, any other value sets it.
   */
  function FilterChanged(filters: Filters, key: string, value: Option<string>): Filters {
    if value.None? || value.value == "" then filters - {key} else filters[key := value.value]
  }

  /** Only `key` changes: it is present exactly when a non-empty value was given, and then holds that value. */
  lemma FilterChangedSpec(filters: Filters, key: string, value: Option<string>)
    ensures var r := FilterChanged(filters, key, value);
            && (key in r <==> value.Some? && value.value != "")
            && (key in r ==> r[key] == value.value)
            && (forall k :: k != key ==> (k in r <==> k in filters))
            && (forall k :: k != key && k in filters ==> r[k] == filters[k])
  {
  }

  /**
   * React keeps the last value handed to `setFilters` during one handler;
   * `pending` lists those values in call order.
   */
  function Settled(current: Filters, pending: seq<Filters>): Filters {
    if pending == [] then current else pending[|pending| - 1]
  }

  /** The filters with both date keys removed, as the clearing branch leaves them. */
  function WithoutRange(filters: Filters): (r: Filters)
    ensures "start_date" !in r && "end_date" !in r
    ensures forall k :: k != "start_date" && k != "end_date" ==> (k in r <==> k in filters)
    ensures forall k :: k in r ==> r[k] == filters[k]
  {
    filters - {"start_date", "end_date"}
  }

  /**
   * `handleDateRangeChange` as written: with two dates it calls
   * `handleFilterChange` twice, and each call copies the same `filters` of
   * the render the handler closed over, so the second `setFilters` replaces
   * the first.
   */
  function DateRangeChangedAsWritten(filters: Filters, dates: Option<seq<string>>): Filters {
    if dates.Some? && |dates.value| == 2 then
      Settled(filters, [FilterChanged(filters, "start_date", Some(dates.value[0])),
                        FilterChanged(filters, "end_date", Some(dates.value[1]))])
    else WithoutRange(filters)
  }

  /**
   * As written, choosing a range keeps only the new end date: any start date
   * stays what it was before (absent on a fresh page).
   */
  lemma DateRangeLosesStart(filters: Filters, start: string, end: string)
    requires end != ""
    ensures var r := DateRangeChangedAsWritten(filters, Some([start, end]));
            && ("start_date" in r <==> "start_date" in filters)
            && "end_date" in r && r["end_date"] == end
    ensures "start_date" !in DateRangeChangedAsWritten(map[], Some([start, end]))
  {
  }

  /** The evidently intended update: both dates set, one after the other. */
  function DateRangeChanged(filters: Filters, dates: Option<seq<string>>): Filters {
    if dates.Some? && |dates.value| == 2 then
      FilterChanged(FilterChanged(filters, "start_date", Some(dates.value[0])), "end_date", Some(dates.value[1]))
    else WithoutRange(filters)
  }

  /**
   * A chosen range sets both dates and nothing else; clearing it removes both
   * and nothing else.
   */
  lemma DateRangeChangedSpec(filters: Filters, dates: Option<seq<string>>)
    ensures var r := DateRangeChanged(filters, dates);
            && (dates.Some? && |dates.value| == 2 && dates.value[0] != "" && dates.value[1] != "" ==>
                  && "start_date" in r && r["start_date"] == dates.value[0]
                  && "end_date" in r && r["end_date"] == dates.value[1])
            && (!(dates.Some? && |dates.value| == 2) ==> "start_date" !in r && "end_date" !in r)
            && (forall k :: k != "start_date" && k != "end_date" ==> (k in r <==> k in filters))
            && (forall k :: k != "start_date" && k != "end_date" && k in r ==> r[k] == filters[k])
  {
  }

  /** The page state: `pagination` and `filters`. */
  class StockLogPage {
    var pagination: ListPage.Pagination
    var filters: Filters

    /** The initial `useState` values. */
    constructor ()
      ensures pagination == ListPage.Pagination(1, 10, 0) && filters == map[]
    {
      pagination := ListPage.Pagination(1, 10, 0);
      filters := map[];
    }

    /** The parameters `fetchStockLogs` sends: page and limit, then the filters spread over them. */
    function QueryParams(): (params: map<string, ListPage.Param>)
      reads this
      ensures forall key :: key in filters ==> key in params && params[key] == ListPage.Text(filters[key])
      ensures "page" !in filters ==> "page" in params && params["page"] == ListPage.Number(pagination.current)
      ensures "limit" !in filters ==> "limit" in params && params["limit"] == ListPage.Number(pagination.pageSize)
      ensures params.Keys == filters.Keys + {"page", "limit"}
    {
      map["page" := ListPage.Number(pagination.current), "limit" := ListPage.Number(pagination.pageSize)] +
      map key | key in filters :: ListPage.Text(filters[key])
    }

    /** `handleTableChange`: the table's new page and page size. */
    method TableChange(current: int, pageSize: int)
      modifies this
      ensures pagination == old(pagination).(current := current, pageSize := pageSize)
      ensures filters == old(filters)
    {
      pagination := pagination.(current := current, pageSize := pageSize);
    }

    /** `handleFilterChange`: the filter update, and back to page 1. */
    method FilterChange(key: string, value: Option<string>)
      modifies this
      ensures filters == FilterChanged(old(filters), key, value)
      ensures pagination == old(pagination).(current := 1)
    {
      filters := FilterChanged(filters, key, value);
      pagination := pagination.(current := 1);
    }

    /** `handleDateRangeChange`, with both dates kept; back to page 1. */
    method DateRangeChange(dates: Option<seq<string>>)
      modifies this
      ensures filters == DateRangeChanged(old(filters), dates)
      ensures pagination == old(pagination).(current := 1)
    {
      filters := DateRangeChanged(filters, dates);
      pagination := pagination.(current := 1);
    }

    /** The fetched page's `meta.totalItems`. */
    method Fetched(totalItems: int)
      modifies this
      ensures pagination == old(pagination).(total := totalItems)
      ensures filters == old(filters)
    {
      pagination := pagination.(total := totalItems);
    }
  }

  // ---------------------------------------------------------------- cells

  /** An item joined to a log row: its name and its possibly null SKU. */
  datatype ItemRef = ItemRef(name: string, sku: Option<string>)

  /** A stock log as the page receives it; null fields are None. */
  datatype LogRecord = LogRecord(createdAt: string, itemType: string, item: Option<ItemRef>,
                                 movementType: string, quantity: int, referenceType: Option<string>,
                                 referenceId: Option<int>, notes: Option<string>, creator: Option<string>)

  /** `${x}` of a possibly null id. */
  function IdText(id: Option<int>): string {
    if id.None? then "null" else IntToString(id.value)
  }

  /** The reference cell: '-' without a reference type, else "<type>-<id>". */
  function ReferenceText(referenceType: Option<string>, referenceId: Option<int>): string {
    if referenceType.None? || referenceType.value == "" then "-"
    else referenceType.value + "-" + IdText(referenceId)
  }

  /**
   * The dash alone means no reference; otherwise the type and the id can be
   * read back by splitting at the first '-' (the stored types have none).
   */
  lemma ReferenceTextRoundTrip(referenceType: Option<string>, referenceId: Option<int>)
    ensures ReferenceText(referenceType, referenceId) == "-" <==> referenceType.None? || referenceType.value == ""
    ensures referenceType.Some? && referenceType.value != "" && '-' !in referenceType.value && referenceId.Some? ==>
              var r := ReferenceText(referenceType, referenceId);
              && '-' in r && IndexOf(r, '-') == |referenceType.value|
              && r[..IndexOf(r, '-')] == referenceType.value
              && ParseInt(r[IndexOf(r, '-') + 1..]) == referenceId
  {
    if referenceType.Some? && referenceType.value != "" {
      var t := referenceType.value;
      var r := ReferenceText(referenceType, referenceId);
      assert |r| >= |t| + 2;
      if '-' !in t && referenceId.Some? {
        assert r[|t|] == '-';
        assert r[..|t|] == t;
        FirstDash(r, |t|);
        assert r[|t| + 1..] == IntToString(referenceId.value);
        IntToStringRoundTrip(referenceId.value);
      }
    }
  }

  lemma FirstDash(s: string, i: nat)
    requires i < |s| && s[i] == '-' && '-' !in s[..i]
    ensures '-' in s && IndexOf(s, '-') == i
  {
    var r := IndexOf(s, '-');
    assert forall k :: 0 <= k < i ==> s[..i][k] == s[k];
    assert forall k :: 0 <= k < r ==> s[..r][k] == s[k];
  }

  /** A falsy text (null or '') shows as '-'. */
  function OrDash(s: Option<string>): (r: string)
    ensures r == "-" <==> s.None? || s.value == "" || s.value == "-"
  {
    if s.None? || s.value == "" then "-" else s.value
  }

  function ItemCell(item: Option<ItemRef>): string {
    if item.None? then "-" else item.value.name
  }

  /** The SKU column: '-' without an item or with a falsy SKU. */
  function SkuCell(item: Option<ItemRef>): string {
    if item.None? then "-" else OrDash(item.value.sku)
  }

  // ---------------------------------------------------------------- export

  const ExportHeaders := ["Tanggal", "Tipe Item", "Item", "SKU", "Tipe Pergerakan", "Jumlah", "Referensi", "Catatan", "Pengguna"]

  function OptionCell(s: Option<string>): Helpers.Cell {
    if s.None? then Helpers.Null else Helpers.Str(s.value)
  }

  /** The object `handleExport` builds for one log, keys in insertion order. */
  function ExportRow(log: LogRecord, formatDateTime: string -> string): Helpers.Row {
    [("Tanggal", Helpers.Str(formatDateTime(log.createdAt))),
     ("Tipe Item", Helpers.Str(Helpers.ItemTypeText(log.itemType))),
     ("Item", Helpers.Str(ItemCell(log.item))),
     ("SKU", if log.item.None? then Helpers.Str("-") else OptionCell(log.item.value.sku)),
     ("Tipe Pergerakan", Helpers.Str(Helpers.MovementTypeText(log.movementType))),
     ("Jumlah", Helpers.Num(log.quantity)),
     ("Referensi", Helpers.Str(ReferenceText(log.referenceType, log.referenceId))),
     ("Catatan", Helpers.Str(OrDash(log.notes))),
     ("Pengguna", Helpers.Str(if log.creator.None? then "-" else log.creator.value))]
  }

  function ExportRows(logs: seq<LogRecord>, formatDateTime: string -> string): (rows: seq<Helpers.Row>)
    ensures |rows| == |logs|
    ensures forall k :: 0 <= k < |logs| ==> rows[k] == ExportRow(logs[k], formatDateTime)
  {
    seq(|logs|, k requires 0 <= k < |logs| => ExportRow(logs[k], formatDateTime))
  }

  /**
   * Every exported row has the nine headers in order, and its cells agree with
   * the table's: the item, reference and notes texts are the table's, and the
   * SKU differs only for an item whose SKU is null or empty, which the table
   * shows as '-'.
   */
  lemma ExportRowSpec(log: LogRecord, formatDateTime: string -> string)
    ensures var row := ExportRow(log, formatDateTime);
            && Helpers.Keys(row) == ExportHeaders
            && Helpers.Get(row, "Item") == Helpers.Str(ItemCell(log.item))
            && Helpers.Get(row, "Referensi") == Helpers.Str(ReferenceText(log.referenceType, log.referenceId))
            && Helpers.Get(row, "Catatan") == Helpers.Str(OrDash(log.notes))
            && Helpers.Get(row, "Jumlah") == Helpers.Num(log.quantity)
            && (Helpers.Get(row, "SKU") == Helpers.Str(SkuCell(log.item)) <==>
                  log.item.None? || (log.item.value.sku.Some? && log.item.value.sku.value != ""))
  {
    var row := ExportRow(log, formatDateTime);
    ExportRowKeys(log, formatDateTime);
    assert forall j :: 0 <= j < 9 ==> row[j].0 == Helpers.Keys(row)[j];
    HeaderCell(row, 2);
    HeaderCell(row, 3);
    HeaderCell(row, 5);
    HeaderCell(row, 6);
    HeaderCell(row, 7);
    SkuExport(log.item);
  }

  /** The exported SKU: '-' without an item, else the raw SKU, which the table shows as '-' when falsy. */
  lemma SkuExport(item: Option<ItemRef>)
    ensures (if item.None? then Helpers.Str("-") else OptionCell(item.value.sku)) == Helpers.Str(SkuCell(item)) <==>
              item.None? || (item.value.sku.Some? && item.value.sku.value != "")
  {
  }

  lemma ExportRowKeys(log: LogRecord, formatDateTime: string -> string)
    ensures Helpers.Keys(ExportRow(log, formatDateTime)) == ExportHeaders
  {
  }

  /** The nine headers are distinct. */
  lemma HeadersDistinctBefore(k: nat)
    requires k < 9
    ensures forall j :: 0 <= j < k ==> ExportHeaders[j] != ExportHeaders[k]
  {
    assert forall j :: 0 <= j < 9 ==> |ExportHeaders[j]| > 0;
    forall j | 0 <= j < k
      ensures ExportHeaders[j] != ExportHeaders[k]
    {
      assert ExportHeaders[j][0] != ExportHeaders[k][0] || |ExportHeaders[j]| != |ExportHeaders[k]|;
    }
  }

  /** In a row keyed by the export headers, each header gives its own cell. */
  lemma HeaderCell(row: Helpers.Row, k: nat)
    requires |row| == 9 && forall j :: 0 <= j < 9 ==> row[j].0 == ExportHeaders[j]
    requires k < 9
    ensures Helpers.Get(row, ExportHeaders[k]) == row[k].1
  {
    HeadersDistinctBefore(k);
    GetAt(row, k);
  }

  /** A row's value for a header is the one at the header's first position. */
  lemma {:induction false} GetAt(row: Helpers.Row, k: nat)
    requires k < |row| && forall j :: 0 <= j < k ==> row[j].0 != row[k].0
    ensures Helpers.Get(row, row[k].0) == row[k].1
  {
    if k > 0 {
      GetAt(row[1..], k - 1);
    }
  }

  /** The CSV of a non-empty log list starts with the header line; no logs give no file. */
  lemma ExportCsvHeader(logs: seq<LogRecord>, formatDateTime: string -> string)
    ensures Helpers.ExportCsv(ExportRows(logs, formatDateTime)).None? <==> logs == []
    ensures logs != [] ==>
              Helpers.CsvLines(ExportRows(logs, formatDateTime))[0] == Join(ExportHeaders, ',')
  {
    if logs != [] {
      ExportRowSpec(logs[0], formatDateTime);
    }
  }

  // ---------------------------------------------------------------- stored logs

  function ItemTypeName(t: PoController.ItemType): string {
    match t
    case MaterialItem => "material"
    case ProductItem => "product"
  }

  function MovementName(m: PoController.Movement): string {
    match m
    case In => "in"
    case Out => "out"
    case Adjust => "adjust"
  }

  function ReferenceName(r: PoController.ReferenceType): string {
    match r
    case PoRef => "PO"
    case WoRef => "WO"
    case SoRef => "SO"
    case AdjustmentRef => "ADJUSTMENT"
  }

  /** A stored log as the page receives it, with its joined item and creator. */
  function Received(log: PoController.StockLog, createdAt: string, item: Option<ItemRef>, creator: Option<string>): LogRecord {
    LogRecord(createdAt, ItemTypeName(log.itemType), item, MovementName(log.movementType), log.quantity,
              Some(ReferenceName(log.referenceType)), Some(log.referenceId), Some(log.notes), creator)
  }

  /**
   * A log written by receiving a purchase order exports as a material coming
   * in, referenced "PO-<id>", with the order number in its notes.
   */
  lemma ReceiptLogExport(po: PoController.PurchaseOrder, poItem: PoController.PoItem, actor: int,
                         createdAt: string, item: Option<ItemRef>, creator: Option<string>,
                         formatDateTime: string -> string)
    ensures var row := ExportRow(Received(PoController.ReceiptLog(po, poItem, actor), createdAt, item, creator), formatDateTime);
            && row[1].1 == Helpers.Str("Bahan Baku")
            && row[4].1 == Helpers.Str("Masuk")
            && row[5].1 == Helpers.Num(poItem.quantity)
            && row[6].1 == Helpers.Str("PO-" + IntToString(po.id))
            && row[7].1 == Helpers.Str("Received from PO: " + po.data.poNumber)
  {
    var log := Received(PoController.ReceiptLog(po, poItem, actor), createdAt, item, creator);
    assert log.itemType == "material" && log.movementType == "in" && log.quantity == poItem.quantity;
    assert log.referenceType == Some("PO") && log.referenceId == Some(po.id);
    assert log.notes == Some("Received from PO: " + po.data.poNumber);
    assert "Received from PO: " + po.data.poNumber != "";
    ReceiptTexts();
    assert ReferenceText(log.referenceType, log.referenceId) == "PO-" + IntToString(po.id);
  }

  /** The names a receipt stores display as raw material and incoming. */
  lemma ReceiptTexts()
    ensures Helpers.ItemTypeText(ItemTypeName(PoController.MaterialItem)) == "Bahan Baku"
    ensures Helpers.MovementTypeText(MovementName(PoController.In)) == "Masuk"
  {
  }
}
