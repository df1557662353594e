/**
 * The display helpers of the browser app (frontend/src/utils/helpers.js):
 * label and colour lookups with a fallback, the defaults of the table
 * columns, the text of a CSV export, and the colour derived from a string.
 */
module Helpers {
  import opened Wrappers
  import opened Text
  import PoController

  // ---------------------------------------------------------------- lookups

  /** `table[key] || fallback`: an empty mapped text is falsy and falls back too. */
  function Lookup(table: map<string, string>, key: string, fallback: string): (r: string)
    ensures key in table && table[key] != "" ==> r == table[key]
    ensures (key !in table || table[key] == "") ==> r == fallback
  {
    if key in table && table[key] != "" then table[key] else fallback
  }

  const StatusColors: map<string, string> := map[
    "active" := "green", "inactive" := "red", "pending" := "orange", "approved" := "blue",
    "received" := "green", "cancelled" := "red", "in_progress" := "blue", "completed" := "green",
    "confirmed" := "blue", "shipped" := "purple"]

  const StatusTexts: map<string, string> := map[
    "active" := "Aktif", "inactive" := "Tidak Aktif", "pending" := "Menunggu", "approved" := "Disetujui",
    "received" := "Diterima", "cancelled" := "Dibatalkan", "in_progress" := "Dalam Proses",
    "completed" := "Selesai", "confirmed" := "Dikonfirmasi", "shipped" := "Dikirim"]

  const RoleTexts: map<string, string> := map["admin" := "Administrator", "manager" := "Manager", "staff" := "Staff"]
  const ProductTypeTexts: map<string, string> := map["sendal" := "Sendal", "boot" := "Boot"]
  const CustomerTypeTexts: map<string, string> := map["retail" := "Retail", "wholesale" := "Grosir"]
  const MovementTypeTexts: map<string, string> := map["in" := "Masuk", "out" := "Keluar", "adjust" := "Penyesuaian"]
  const ItemTypeTexts: map<string, string> := map["material" := "Bahan Baku", "product" := "Produk"]

  function StatusColor(status: string): string { Lookup(StatusColors, status, "default") }
  function StatusText(status: string): string { Lookup(StatusTexts, status, status) }
  function RoleText(role: string): string { Lookup(RoleTexts, role, role) }
  function ProductTypeText(t: string): string { Lookup(ProductTypeTexts, t, t) }
  function CustomerTypeText(t: string): string { Lookup(CustomerTypeTexts, t, t) }
  function MovementTypeText(t: string): string { Lookup(MovementTypeTexts, t, t) }
  function ItemTypeText(t: string): string { Lookup(ItemTypeTexts, t, t) }

  /** Every status the three order workflows use. */
  const OrderStatuses: set<string> := {"pending", "approved", "received", "cancelled", "in_progress", "completed", "confirmed", "shipped"}

  /**
   * A mapped status gets its colour, anything else "default"; every order
   * status has a colour other than "default" and an Indonesian text.
   */
  lemma StatusColorTable(status: string)
    ensures status in StatusColors ==> StatusColor(status) == StatusColors[status] && StatusColor(status) != "default"
    ensures status !in StatusColors ==> StatusColor(status) == "default"
    ensures status in OrderStatuses ==> status in StatusColors && status in StatusTexts
    ensures StatusColor("shipped") == "purple" && StatusColor("pending") == "orange"
  {
  }

  /** Every purchase-order status the controller stores is mapped. */
  lemma PoStatusesMapped(s: PoController.PoStatus)
    ensures PoController.StatusName(s) in OrderStatuses
    ensures StatusText(PoController.StatusName(s)) == StatusTexts[PoController.StatusName(s)]
  {
  }

  /** The text lookups are the identity on keys they do not map. */
  lemma TextLookupsFallBackToInput(t: string)
    ensures t !in StatusTexts ==> StatusText(t) == t
    ensures t !in RoleTexts ==> RoleText(t) == t
    ensures t !in ProductTypeTexts ==> ProductTypeText(t) == t
    ensures t !in CustomerTypeTexts ==> CustomerTypeText(t) == t
    ensures t !in MovementTypeTexts ==> MovementTypeText(t) == t
    ensures t !in ItemTypeTexts ==> ItemTypeText(t) == t
  {
  }

  /** Every text in the tables is non-empty, so the lookups give the table's text on keys they map. */
  lemma TextLookupsUseTable(t: string)
    ensures t in StatusTexts ==> StatusText(t) == StatusTexts[t]
    ensures t in RoleTexts ==> RoleText(t) == RoleTexts[t]
    ensures t in ProductTypeTexts ==> ProductTypeText(t) == ProductTypeTexts[t]
    ensures t in CustomerTypeTexts ==> CustomerTypeText(t) == CustomerTypeTexts[t]
    ensures t in MovementTypeTexts ==> MovementTypeText(t) == MovementTypeTexts[t]
    ensures t in ItemTypeTexts ==> ItemTypeText(t) == ItemTypeTexts[t]
  {
    TablesHaveNoEmptyText();
    LookupKnown(StatusTexts, t, t);
    LookupKnown(RoleTexts, t, t);
    LookupKnown(ProductTypeTexts, t, t);
    LookupKnown(CustomerTypeTexts, t, t);
    LookupKnown(MovementTypeTexts, t, t);
    LookupKnown(ItemTypeTexts, t, t);
  }

  predicate NoEmptyText(table: map<string, string>) {
    forall key :: key in table ==> table[key] != ""
  }

  lemma LookupKnown(table: map<string, string>, key: string, fallback: string)
    requires NoEmptyText(table)
    ensures key in table ==> Lookup(table, key, fallback) == table[key]
  {
  }

  lemma TablesHaveNoEmptyText()
    ensures NoEmptyText(StatusTexts) && NoEmptyText(RoleTexts) && NoEmptyText(ProductTypeTexts)
    ensures NoEmptyText(CustomerTypeTexts) && NoEmptyText(MovementTypeTexts) && NoEmptyText(ItemTypeTexts)
  {
    StatusTextsNonEmpty();
    RoleTextsNonEmpty();
    ProductTypeTextsNonEmpty();
    CustomerTypeTextsNonEmpty();
    MovementTypeTextsNonEmpty();
    ItemTypeTextsNonEmpty();
  }

  /** A table none of whose values is empty. */
  lemma NoEmptyValue(table: map<string, string>)
    requires "" !in table.Values
    ensures NoEmptyText(table)
  {
    forall key | key in table
      ensures table[key] != ""
    {
      assert table[key] in table.Values;
    }
  }

  lemma StatusTextsNonEmpty()
    ensures NoEmptyText(StatusTexts)
  {
    NoEmptyValue(StatusTexts);
  }

  lemma RoleTextsNonEmpty()
    ensures NoEmptyText(RoleTexts)
  {
    NoEmptyValue(RoleTexts);
  }

  lemma ProductTypeTextsNonEmpty()
    ensures NoEmptyText(ProductTypeTexts)
  {
    NoEmptyValue(ProductTypeTexts);
  }

  lemma CustomerTypeTextsNonEmpty()
    ensures NoEmptyText(CustomerTypeTexts)
  {
    NoEmptyValue(CustomerTypeTexts);
  }

  lemma MovementTypeTextsNonEmpty()
    ensures NoEmptyText(MovementTypeTexts)
  {
    NoEmptyValue(MovementTypeTexts);
  }

  lemma ItemTypeTextsNonEmpty()
    ensures NoEmptyText(ItemTypeTexts)
  {
    NoEmptyValue(ItemTypeTexts);
  }

  // ---------------------------------------------------------------- table columns

  /** A column property: exactly `false`, exactly `true`, or any other value (a comparator, a string). */
  datatype Prop = False | True | Other(description: string)

  type Column = map<string, Prop>

  function Flag(col: Column, name: string): Prop {
    if name in col && col[name] == False then False else True
  }

  /** One column of `generateTableColumns`: `sorter` and `ellipsis` become `prop !== false`. */
  function WithDefaults(col: Column): Column {
    col["sorter" := Flag(col, "sorter")]["ellipsis" := Flag(col, "ellipsis")]
  }

  function GenerateTableColumns(columns: seq<Column>): (r: seq<Column>)
    ensures |r| == |columns|
  {
    seq(|columns|, k requires 0 <= k < |columns| => WithDefaults(columns[k]))
  }

  /**
   * Sorting and ellipsis are switched on unless the column sets them to
   * exactly false; every other property is kept; applying it twice changes
   * nothing more.
   */
  lemma GenerateTableColumnsSpec(columns: seq<Column>)
    ensures var r := GenerateTableColumns(columns);
            forall k :: 0 <= k < |columns| ==>
              && r[k].Keys == columns[k].Keys + {"sorter", "ellipsis"}
              && (r[k]["sorter"] == False <==> "sorter" in columns[k] && columns[k]["sorter"] == False)
              && (r[k]["sorter"] == True <==> !("sorter" in columns[k] && columns[k]["sorter"] == False))
              && (r[k]["ellipsis"] == False <==> "ellipsis" in columns[k] && columns[k]["ellipsis"] == False)
              && (r[k]["ellipsis"] == True <==> !("ellipsis" in columns[k] && columns[k]["ellipsis"] == False))
              && (forall name :: name in columns[k] && name != "sorter" && name != "ellipsis" ==> r[k][name] == columns[k][name])
    ensures GenerateTableColumns(GenerateTableColumns(columns)) == GenerateTableColumns(columns)
  {
    var r := GenerateTableColumns(columns);
    forall k | 0 <= k < |columns|
      ensures WithDefaults(r[k]) == r[k]
    {
      assert WithDefaults(r[k]).Keys == r[k].Keys;
    }
  }

  // ---------------------------------------------------------------- CSV export

  /** A cell value of an exported row. */
  datatype Cell = Str(s: string) | Num(n: int) | Bool(b: bool) | Null | Undefined

  /** An exported row: its keys in insertion order with their values. */
  type Row = seq<(string, Cell)>

  function Keys(row: Row): (r: seq<string>)
    ensures |r| == |row|
  {
    seq(|row|, k requires 0 <= k < |row| => row[k].0)
  }

  /** `row[header]`: the first entry with the key, undefined when there is none. */
  function Get(row: Row, header: string): Cell {
    if row == [] then Undefined else if row[0].0 == header then row[0].1 else Get(row[1..], header)
  }

  /** A cell as `join` prints it: a string with a comma is quoted, null and undefined print nothing. */
  function CellText(c: Cell): string {
    match c
    case Str(s) => if ',' in s then "\"" + s + "\"" else s
    case Num(n) => IntToString(n)
    case Bool(b) => if b then "true" else "false"
    case Null => ""
    case Undefined => ""
  }

  function RowCells(row: Row, headers: seq<string>): (r: seq<string>)
    ensures |r| == |headers|
  {
    seq(|headers|, k requires 0 <= k < |headers| => CellText(Get(row, headers[k])))
  }

  /** The lines of the CSV text: the first row's keys, then one line per row in the same column order. */
  function CsvLines(data: seq<Row>): (lines: seq<string>)
    requires data != []
    ensures |lines| == |data| + 1
  {
    var headers := Keys(data[0]);
    [Join(headers, ',')] + seq(|data|, k requires 0 <= k < |data| => Join(RowCells(data[k], headers), ','))
  }

  /** The `csvContent` of `exportToCSV`; no data gives nothing. */
  function ExportCsv(data: seq<Row>): (r: Option<string>)
    ensures r.None? <==> data == []
  {
    if data == [] then None else Some(Join(CsvLines(data), '\n'))
  }


  /** A quoted cell is exactly a string containing a comma; no other value gets quotes added. */
  lemma CellQuoting(c: Cell)
    ensures c.Str? && ',' in c.s ==> CellText(c) == "\"" + c.s + "\""
    ensures c.Str? && ',' !in c.s ==> CellText(c) == c.s
    ensures c.Num? ==> CellText(c) == IntToString(c.n)
  {
  }

  predicate NoNewline(lines: seq<string>) {
    NoneContains(lines, '\n')
  }

  /** When no header or value holds a line break, the text splits back into the header line and one line per row. */
  lemma CsvSplitsIntoLines(data: seq<Row>)
    requires data != [] && NoNewline(CsvLines(data))
    ensures Split(ExportCsv(data).value, '\n') == CsvLines(data)
  {
    SplitJoin(CsvLines(data), '\n');
  }

  /** No header of the first row and no printed cell of any row holds the character. */
  predicate CellsAvoid(data: seq<Row>, c: char)
    requires data != []
  {
    && NoneContains(Keys(data[0]), c)
    && forall k :: 0 <= k < |data| ==> NoneContains(RowCells(data[k], Keys(data[0])), c)
  }

  /**
   * The column round trip: when the first row has a field and no header or
   * printed cell holds a comma or a line break, splitting the export at line
   * breaks and then at commas gives back the headers and, for row k, its
   * cells in the first row's field order.
   */
  lemma CsvColumnsRoundTrip(data: seq<Row>, k: nat)
    requires data != [] && k < |data| && |data[0]| > 0
    requires CellsAvoid(data, ',') && CellsAvoid(data, '\n')
    ensures Split(ExportCsv(data).value, '\n') == CsvLines(data)
    ensures Split(Split(ExportCsv(data).value, '\n')[0], ',') == Keys(data[0])
    ensures Split(Split(ExportCsv(data).value, '\n')[k + 1], ',') == RowCells(data[k], Keys(data[0]))
  {
    var headers := Keys(data[0]);
    var lines := CsvLines(data);
    forall j | 0 <= j < |lines|
      ensures '\n' !in lines[j]
    {
      if j == 0 {
        JoinAvoids(headers, ',', '\n');
      } else {
        JoinAvoids(RowCells(data[j - 1], headers), ',', '\n');
      }
    }
    CsvSplitsIntoLines(data);
    SplitJoin(headers, ',');
    SplitJoin(RowCells(data[k], headers), ',');
  }

  // ---------------------------------------------------------------- string colour

  const TwoTo32 := 0x1_0000_0000

  /** ECMAScript ToInt32 of an integral number. */
  function ToInt32(x: int): (r: int)
    ensures -0x8000_0000 <= r < 0x8000_0000
    ensures (r - x) % TwoTo32 == 0
  {
    var m := x % TwoTo32;
    if m >= 0x8000_0000 then m - TwoTo32 else m
  }

  /**
   * The hash of `stringToColor` over the first characters: each step is
   * `code + ((hash << 5) - hash)`, where the shift works on ToInt32 of the
   * hash and the subtraction and addition on the full number.
   */
  function Hash(s: string): int {
    if s == [] then 0
    else
      var h := Hash(s[..|s| - 1]);
      s[|s| - 1] as int + (ToInt32(h * 32) - h)
  }

  function Pow256(i: nat): nat
    requires i < 3
  {
    if i == 0 then 1 else if i == 1 then 256 else 65536
  }

  /** `(hash >> (i * 8)) & 0xFF`: an arithmetic shift of ToInt32(hash), then the low byte. */
  function HashByte(hash: int, i: nat): (b: nat)
    requires i < 3
    ensures b < 256
  {
    ToInt32(hash) / Pow256(i) % 256
  }

  function HexDigit(d: nat): (c: char)
    requires d < 16
    ensures IsHexDigit(c) && HexValue(c) == d
  {
    if d < 10 then ('0' as int + d) as char else ('a' as int + d - 10) as char
  }

  predicate IsHexDigit(c: char) {
    '0' <= c <= '9' || 'a' <= c <= 'f'
  }

  function HexValue(c: char): nat {
    if '0' <= c <= '9' then c as int - '0' as int
    else if 'a' <= c <= 'f' then c as int - 'a' as int + 10
    else 0
  }

  /** `` `00${value.toString(16)}`.substr(-2) `` for a byte: two lower-case hex digits. */
  function Hex2(value: nat): (r: string)
    requires value < 256
    ensures |r| == 2 && IsHexDigit(r[0]) && IsHexDigit(r[1])
    ensures HexValue(r[0]) * 16 + HexValue(r[1]) == value
  {
    [HexDigit(value / 16), HexDigit(value % 16)]
  }

  /** The colour for a hash: '#', then the hex of its bytes 0, 1 and 2 in that order. */
  function ColorOf(hash: int): string {
    "#" + Hex2(HashByte(hash, 0)) + Hex2(HashByte(hash, 1)) + Hex2(HashByte(hash, 2))
  }

  /** `stringToColor`, with its two loops. */
  method StringToColor(str: string) returns (color: string)
    ensures color == ColorOf(Hash(str))
    ensures |color| == 7 && color[0] == '#' && forall k :: 1 <= k < 7 ==> IsHexDigit(color[k])
  {
    var hash := 0;
    var i := 0;
    while i < |str|
      invariant 0 <= i <= |str|
      invariant hash == Hash(str[..i])
    {
      assert str[..i + 1][..i] == str[..i];
      hash := str[i] as int + (ToInt32(hash * 32) - hash);
      i := i + 1;
    }
    assert str[..i] == str;
    color := HashColor(hash);
  }

  /** The second loop of `stringToColor`: '#' and the hex of the hash's three low bytes. */
  method HashColor(hash: int) returns (color: string)
    ensures color == ColorOf(hash)
    ensures |color| == 7 && color[0] == '#' && forall k :: 1 <= k < 7 ==> IsHexDigit(color[k])
  {
    color := "#";
    var j := 0;
    while j < 3
      invariant 0 <= j <= 3
      invariant |color| == 1 + 2 * j && color[0] == '#'
      invariant forall k :: 1 <= k < |color| ==> IsHexDigit(color[k])
      invariant j >= 1 ==> color[1..3] == Hex2(HashByte(hash, 0))
      invariant j >= 2 ==> color[3..5] == Hex2(HashByte(hash, 1))
      invariant j >= 3 ==> color[5..7] == Hex2(HashByte(hash, 2))
    {
      var value := HashByte(hash, j);
      color := color + Hex2(value);
      j := j + 1;
    }
    assert color == "#" + color[1..3] + color[3..5] + color[5..7];
  }

  lemma BaseDigits(u: int)
    requires 0 <= u
    ensures u % 256 + 256 * (u / 256 % 256) + 65536 * (u / 65536 % 256) == u % 0x100_0000
  {
    var a, r0 := u / 256, u % 256;
    var b, r1 := a / 256, a % 256;
    var c, r2 := b / 256, b % 256;
    assert u / 65536 == b;
    assert u == 0x100_0000 * c + (65536 * r2 + 256 * r1 + r0);
  }

  lemma LowBitsOfWrapped(hash: int)
    ensures hash % TwoTo32 % 0x100_0000 == hash % 0x100_0000
  {
    var q, r := hash / TwoTo32, hash % TwoTo32;
    var q2, r2 := r / 0x100_0000, r % 0x100_0000;
    assert hash == TwoTo32 * q + r;
    assert r == 0x100_0000 * q2 + r2;
    assert hash == 0x100_0000 * (256 * q + q2) + r2;
    Mod24Unique(hash, 256 * q + q2, r2);
  }

  /** Euclidean division by 2^24 has one quotient and one remainder. */
  lemma Mod24Unique(a: int, q: int, r: int)
    requires a == 0x100_0000 * q + r && 0 <= r < 0x100_0000
    ensures a % 0x100_0000 == r
  {
  }

  lemma SignedBytes(x: int)
    ensures (x + TwoTo32) % 256 == x % 256
    ensures (x + TwoTo32) / 256 % 256 == x / 256 % 256
    ensures (x + TwoTo32) / 65536 % 256 == x / 65536 % 256
  {
    assert (x + TwoTo32) / 256 == x / 256 + 0x100_0000;
    assert (x + TwoTo32) / 65536 == x / 65536 + 65536;
  }

  /** The colour's three bytes are the low 24 bits of the hash, lowest byte first. */
  lemma ColorIsLow24Bits(hash: int)
    ensures HashByte(hash, 0) + 256 * HashByte(hash, 1) + 65536 * HashByte(hash, 2) == hash % 0x100_0000
  {
    var u := hash % TwoTo32;
    var x := ToInt32(hash);
    if x < 0 {
      assert x + TwoTo32 == u;
      SignedBytes(x);
    }
    BaseDigits(u);
    LowBitsOfWrapped(hash);
  }
}
