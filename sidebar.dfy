/**
 * The navigation menu of the browser app
 * (frontend/src/components/common/Sidebar.jsx): the items a role sees, the
 * submenu opened for the current path, and the selected key. Icons are left
 * out; an item is its key, its caption (the label shown) and its children.
 */
module Sidebar {
  import opened Wrappers

  datatype MenuItem = MenuItem(key: string, caption: string, children: seq<MenuItem>)

  function Leaf(key: string, caption: string): MenuItem {
    MenuItem(key, caption, [])
  }

  const Dashboard := Leaf("/dashboard", "Dashboard")

  const Inventory := MenuItem("/inventory", "Inventaris", [
    Leaf("/inventory/materials", "Bahan Baku"),
    Leaf("/inventory/products", "Produk"),
    Leaf("/inventory/stock-logs", "Log Stok")])

  const Management := MenuItem("/management", "Manajemen", [
    Leaf("/management/bom", "Bill of Materials"),
    Leaf("/management/suppliers", "Pemasok"),
    Leaf("/management/customers", "Pelanggan")])

  const Transactions := MenuItem("/transactions", "Transaksi", [
    Leaf("/transactions/purchase-orders", "Pesanan Pembelian"),
    Leaf("/transactions/work-orders", "Pesanan Produksi"),
    Leaf("/transactions/sales-orders", "Pesanan Penjualan")])

  /** `baseMenuItems`. */
  const BaseMenuItems := [Dashboard, Inventory, Management, Transactions]

  const UsersItem := Leaf("/users", "Kelola Pengguna")

  /** `menuItems` for `user?.role` (None when there is no user). */
  function MenuItems(role: Option<string>): seq<MenuItem> {
    if role == Some("viewer") then [Dashboard]
    else if role == Some("admin") then BaseMenuItems + [UsersItem]
    else BaseMenuItems
  }

  /**
   * A viewer sees only the dashboard; an admin sees every base item and then
   * user management, last; anyone else, the base items.
   */
  lemma MenuByRole(role: Option<string>)
    ensures role == Some("viewer") ==> MenuItems(role) == [Leaf("/dashboard", "Dashboard")]
    ensures role == Some("admin") ==>
              && MenuItems(role)[..|BaseMenuItems|] == BaseMenuItems
              && |MenuItems(role)| == |BaseMenuItems| + 1
              && MenuItems(role)[|BaseMenuItems|].key == "/users"
    ensures role != Some("viewer") && role != Some("admin") ==> MenuItems(role) == BaseMenuItems
    ensures "/users" in (set item | item in MenuItems(role) :: item.key) <==> role == Some("admin")
  {
  }

  predicate StartsWith(s: string, prefix: string) {
    |prefix| <= |s| && s[..|prefix|] == prefix
  }

  /** `getInitialOpenKeys`: the group whose key prefixes the path, tested in menu order. */
  function InitialOpenKeys(path: string): seq<string> {
    if StartsWith(path, "/inventory") then ["/inventory"]
    else if StartsWith(path, "/management") then ["/management"]
    else if StartsWith(path, "/transactions") then ["/transactions"]
    else []
  }

  /** `getSelectedKeys`. */
  function SelectedKeys(path: string): (keys: seq<string>)
    ensures keys == [path]
  {
    [path]
  }

  /**
   * For every role but viewer, the page of a submenu entry is shown selected:
   * its selected key is the key of an entry of a group in that role's menu,
   * and that group is the one opened.
   */
  lemma SelectedEntryIsInMenu(role: Option<string>, g: MenuItem, child: MenuItem)
    requires role != Some("viewer") && g in BaseMenuItems && child in g.children
    ensures g in MenuItems(role)
    ensures SelectedKeys(child.key) == [child.key]
    ensures InitialOpenKeys(child.key) == [g.key]
  {
    ChildPageOpensItsGroup(g, child);
  }

  /** The dashboard page is shown selected in every role's menu and opens no group. */
  lemma DashboardSelected(role: Option<string>)
    ensures exists item :: item in MenuItems(role) && SelectedKeys("/dashboard") == [item.key]
    ensures InitialOpenKeys("/dashboard") == []
  {
    assert MenuItems(role)[0] == Dashboard;
    assert "/dashboard"[1] != "/inventory"[1];
    assert "/dashboard"[1] != "/management"[1];
    assert "/dashboard"[1] != "/transactions"[1];
  }

  /** The open key is a group of the base menu whose key prefixes the path; there is none otherwise. */
  lemma OpenKeyIsPrefixGroup(path: string)
    ensures |InitialOpenKeys(path)| <= 1
    ensures InitialOpenKeys(path) != [] ==>
              exists g :: g in [Inventory, Management, Transactions] && InitialOpenKeys(path) == [g.key] && StartsWith(path, g.key)
    ensures InitialOpenKeys(path) == [] <==>
              !StartsWith(path, "/inventory") && !StartsWith(path, "/management") && !StartsWith(path, "/transactions")
  {
    if StartsWith(path, "/inventory") {
      assert Inventory in [Inventory, Management, Transactions];
    } else if StartsWith(path, "/management") {
      assert Management in [Inventory, Management, Transactions];
    } else if StartsWith(path, "/transactions") {
      assert Transactions in [Inventory, Management, Transactions];
    }
  }

  /** Opening the page of any submenu entry opens that entry's group. */
  lemma ChildPageOpensItsGroup(g: MenuItem, child: MenuItem)
    requires g in BaseMenuItems && child in g.children
    ensures InitialOpenKeys(child.key) == [g.key]
  {
    assert g == Inventory || g == Management || g == Transactions;
    if g == Inventory {
      InventoryChildOpens(child);
    } else if g == Management {
      ManagementChildOpens(child);
    } else {
      TransactionsChildOpens(child);
    }
  }

  lemma InventoryChildOpens(child: MenuItem)
    requires child in Inventory.children
    ensures InitialOpenKeys(child.key) == ["/inventory"]
  {
    assert child.key[..10] == "/inventory";
  }

  lemma ManagementChildOpens(child: MenuItem)
    requires child in Management.children
    ensures InitialOpenKeys(child.key) == ["/management"]
  {
    assert !StartsWith(child.key, "/inventory") by { assert child.key[3] != "/inventory"[3]; }
    assert child.key[..11] == "/management";
  }

  lemma TransactionsChildOpens(child: MenuItem)
    requires child in Transactions.children
    ensures InitialOpenKeys(child.key) == ["/transactions"]
  {
    assert StartsWith(child.key, "/transactions");
    OpensTransactions(child.key);
  }

  /** A path under "/transactions" matches neither earlier group. */
  lemma OpensTransactions(path: string)
    requires StartsWith(path, "/transactions")
    ensures InitialOpenKeys(path) == ["/transactions"]
  {
    assert path[1] == "/transactions"[1];
    assert !StartsWith(path, "/inventory") by { assert path[1] != "/inventory"[1]; }
    assert !StartsWith(path, "/management") by { assert path[1] != "/management"[1]; }
  }
}
