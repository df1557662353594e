/**
 * What the three order pages compute from their records
 * (frontend/src/pages/transaction/PurchaseOrders.jsx, SalesOrders.jsx and
 * WorkOrder.jsx): the action buttons each status offers, in render order,
 * the status counts of the statistic cards, and on the work-order page the
 * BOM shortage alert, the completion-quantity rules and the choice between
 * create and update. A record enters only through its status field.
 */
module OrderPages {
  import opened Wrappers
  import PoController

  datatype SoStatus = SoPending | SoConfirmed | SoShipped | SoCompleted | SoCancelled
  datatype WoStatus = WoPending | WoInProgress | WoCompleted | WoCancelled

  /** The buttons of the action column. */
  datatype Action = View | Edit | Approve | Confirm | Ship | Complete | ViewBom | Start | Cancel | Receive | Delete

  // ---------------------------------------------------------------- action columns

  /** Purchase-order row: view; pending adds edit, approve, cancel; approved adds receive; both add delete. */
  function PoActions(s: PoController.PoStatus): seq<Action> {
    [View]
    + (if s == PoController.Pending then [Edit, Approve, Cancel] else [])
    + (if s == PoController.Approved then [Receive] else [])
    + (if s == PoController.Pending || s == PoController.Approved then [Delete] else [])
  }

  /** Sales-order row: view; pending adds edit, confirm, cancel; confirmed ship; shipped complete; pending or confirmed delete. */
  function SoActions(s: SoStatus): seq<Action> {
    [View]
    + (if s == SoPending then [Edit, Confirm, Cancel] else [])
    + (if s == SoConfirmed then [Ship] else [])
    + (if s == SoShipped then [Complete] else [])
    + (if s == SoPending || s == SoConfirmed then [Delete] else [])
  }

  /** Work-order row: view; pending adds edit, BOM, start, cancel and delete; in progress adds complete. */
  function WoActions(s: WoStatus): seq<Action> {
    [View]
    + (if s == WoPending then [Edit, ViewBom, Start, Cancel] else [])
    + (if s == WoInProgress then [Complete] else [])
    + (if s == WoPending then [Delete] else [])
  }

  /** The purchase-order buttons for each status, written out. */
  lemma PoActionTable()
    ensures PoActions(PoController.Pending) == [View, Edit, Approve, Cancel, Delete]
    ensures PoActions(PoController.Approved) == [View, Receive, Delete]
    ensures PoActions(PoController.Received) == [View]
    ensures PoActions(PoController.Cancelled) == [View]
  {
  }

  /**
   * Every button a purchase order offers is one its controller accepts:
   * approve and receive are offered exactly when their guard holds; edit,
   * cancel and delete only where the guard holds, and delete exactly for
   * pending and approved.
   */
  lemma PoActionsPassGuards(s: PoController.PoStatus)
    ensures Approve in PoActions(s) <==> PoController.CanApprove(s)
    ensures Receive in PoActions(s) <==> PoController.CanReceive(s)
    ensures Edit in PoActions(s) ==> PoController.CanUpdate(s)
    ensures Cancel in PoActions(s) ==> PoController.CanCancel(s)
    ensures Delete in PoActions(s) ==> PoController.CanDelete(s)
    ensures Delete in PoActions(s) <==> s == PoController.Pending || s == PoController.Approved
  {
  }

  /** The sales-order buttons for each status; completed and cancelled orders offer no transition. */
  lemma SoActionTable()
    ensures SoActions(SoPending) == [View, Edit, Confirm, Cancel, Delete]
    ensures SoActions(SoConfirmed) == [View, Ship, Delete]
    ensures SoActions(SoShipped) == [View, Complete]
    ensures SoActions(SoCompleted) == [View]
    ensures SoActions(SoCancelled) == [View]
  {
  }

  /** The work-order buttons for each status. */
  lemma WoActionTable()
    ensures WoActions(WoPending) == [View, Edit, ViewBom, Start, Cancel, Delete]
    ensures WoActions(WoInProgress) == [View, Complete]
    ensures WoActions(WoCompleted) == [View]
    ensures WoActions(WoCancelled) == [View]
  {
  }

  // ---------------------------------------------------------------- statistic cards

  /** `data.filter(item => item.status === s).length`. */
  function Count<T(==)>(data: seq<T>, s: T): (n: nat)
    ensures n <= |data|
  {
    if data == [] then 0 else Count(data[..|data| - 1], s) + (if data[|data| - 1] == s then 1 else 0)
  }

  datatype PoStats = PoStats(total: nat, pending: nat, approved: nat, received: nat, cancelled: nat)
  datatype SoStats = SoStats(total: nat, pending: nat, confirmed: nat, shipped: nat, completed: nat)
  datatype WoStats = WoStats(total: nat, pending: nat, inProgress: nat, completed: nat, cancelled: nat)

  function PoStatsOf(data: seq<PoController.PoStatus>): PoStats {
    PoStats(|data|, Count(data, PoController.Pending), Count(data, PoController.Approved),
            Count(data, PoController.Received), Count(data, PoController.Cancelled))
  }

  /** The sales-order cards have no cancelled count. */
  function SoStatsOf(data: seq<SoStatus>): SoStats {
    SoStats(|data|, Count(data, SoPending), Count(data, SoConfirmed), Count(data, SoShipped), Count(data, SoCompleted))
  }

  function WoStatsOf(data: seq<WoStatus>): WoStats {
    WoStats(|data|, Count(data, WoPending), Count(data, WoInProgress), Count(data, WoCompleted), Count(data, WoCancelled))
  }

  /** Every purchase order is counted under exactly one status card. */
  lemma {:induction false} PoStatsPartition(data: seq<PoController.PoStatus>)
    ensures var st := PoStatsOf(data); st.pending + st.approved + st.received + st.cancelled == st.total
    decreases |data|
  {
    if data != [] {
      var n := |data| - 1;
      PoStatsPartition(data[..n]);
      assert Count(data, PoController.Pending) == Count(data[..n], PoController.Pending) + (if data[n] == PoController.Pending then 1 else 0);
      assert Count(data, PoController.Approved) == Count(data[..n], PoController.Approved) + (if data[n] == PoController.Approved then 1 else 0);
      assert Count(data, PoController.Received) == Count(data[..n], PoController.Received) + (if data[n] == PoController.Received then 1 else 0);
      assert Count(data, PoController.Cancelled) == Count(data[..n], PoController.Cancelled) + (if data[n] == PoController.Cancelled then 1 else 0);
    }
  }

  /** The sales-order cards leave out exactly the cancelled orders. */
  lemma {:induction false} SoStatsPartition(data: seq<SoStatus>)
    ensures var st := SoStatsOf(data); st.pending + st.confirmed + st.shipped + st.completed + Count(data, SoCancelled) == st.total
    decreases |data|
  {
    if data != [] {
      var n := |data| - 1;
      SoStatsPartition(data[..n]);
      assert Count(data, SoPending) == Count(data[..n], SoPending) + (if data[n] == SoPending then 1 else 0);
      assert Count(data, SoConfirmed) == Count(data[..n], SoConfirmed) + (if data[n] == SoConfirmed then 1 else 0);
      assert Count(data, SoShipped) == Count(data[..n], SoShipped) + (if data[n] == SoShipped then 1 else 0);
      assert Count(data, SoCompleted) == Count(data[..n], SoCompleted) + (if data[n] == SoCompleted then 1 else 0);
      assert Count(data, SoCancelled) == Count(data[..n], SoCancelled) + (if data[n] == SoCancelled then 1 else 0);
    }
  }

  /** Every work order is counted under exactly one status card. */
  lemma {:induction false} WoStatsPartition(data: seq<WoStatus>)
    ensures var st := WoStatsOf(data); st.pending + st.inProgress + st.completed + st.cancelled == st.total
    decreases |data|
  {
    if data != [] {
      var n := |data| - 1;
      WoStatsPartition(data[..n]);
      assert Count(data, WoPending) == Count(data[..n], WoPending) + (if data[n] == WoPending then 1 else 0);
      assert Count(data, WoInProgress) == Count(data[..n], WoInProgress) + (if data[n] == WoInProgress then 1 else 0);
      assert Count(data, WoCompleted) == Count(data[..n], WoCompleted) + (if data[n] == WoCompleted then 1 else 0);
      assert Count(data, WoCancelled) == Count(data[..n], WoCancelled) + (if data[n] == WoCancelled then 1 else 0);
    }
  }

  /** A count is the number of positions holding the status. */
  lemma {:induction false} CountIsPositions<T>(data: seq<T>, s: T)
    ensures Count(data, s) == |set k | 0 <= k < |data| && data[k] == s|
    decreases |data|
  {
    if data != [] {
      var n := |data| - 1;
      CountIsPositions(data[..n], s);
      var before := set k | 0 <= k < n && data[..n][k] == s;
      var now := set k | 0 <= k < |data| && data[k] == s;
      assert before == set k | 0 <= k < n && data[k] == s;
      if data[n] == s {
        assert now == before + {n};
      } else {
        assert now == before;
      }
    }
  }

  /**
   * The list routes validate the query with `validatePagination`
   * (src/middleware/validation.js:132): a `limit` must be an integer from 1
   * to 100, or the request is refused with 400.
   */
  predicate LimitAccepted(limit: int) {
    1 <= limit <= 100
  }

  /** The limit `fetchStats` asks for (PurchaseOrders.jsx:131, and the same on the other two pages). */
  const StatsLimit := 1000

  /** The largest limit the list route accepts. */
  const CorrectedStatsLimit := 100

  /** The `stats` state before the first fetch. */
  const InitialPoStats := PoStats(0, 0, 0, 0, 0)

  /**
   * The purchase-order cards after `fetchStats` asks for `limit` orders of a
   * server holding `data`: a refused request ends in the `catch`, which keeps
   * the cards as they were; otherwise the first `limit` orders are counted.
   */
  function FetchedPoStats(limit: int, cards: PoStats, data: seq<PoController.PoStatus>): PoStats {
    if !LimitAccepted(limit) then cards
    else PoStatsOf(if |data| <= limit then data else data[..limit])
  }

  /**
   * As written: the limit 1000 is refused, so the cards keep their initial
   * zeros whatever the server holds, even a single pending order.
   */
  lemma StatsFetchKeepsZeros(data: seq<PoController.PoStatus>)
    ensures !LimitAccepted(StatsLimit)
    ensures FetchedPoStats(StatsLimit, InitialPoStats, data) == InitialPoStats
    ensures FetchedPoStats(StatsLimit, InitialPoStats, [PoController.Pending]) != PoStatsOf([PoController.Pending])
  {
  }

  /**
   * With the largest accepted limit the cards count every order of a server
   * holding at most 100, count exactly 100 otherwise, and always partition
   * their total.
   */
  lemma CorrectedStatsCount(cards: PoStats, data: seq<PoController.PoStatus>)
    ensures LimitAccepted(CorrectedStatsLimit)
    ensures |data| <= CorrectedStatsLimit ==> FetchedPoStats(CorrectedStatsLimit, cards, data) == PoStatsOf(data)
    ensures FetchedPoStats(CorrectedStatsLimit, cards, data).total == if |data| <= CorrectedStatsLimit then |data| else CorrectedStatsLimit
    ensures var st := FetchedPoStats(CorrectedStatsLimit, cards, data);
            st.pending + st.approved + st.received + st.cancelled == st.total
  {
    PoStatsPartition(if |data| <= CorrectedStatsLimit then data else data[..CorrectedStatsLimit]);
  }

  // ---------------------------------------------------------------- work orders

  /** A row of the BOM requirements the server reports for a work order. */
  datatype BomRequirement = BomRequirement(materialId: int, requiredQuantity: int, currentStock: int, shortage: int)

  /** The shortage cell is red exactly for a positive shortage. */
  predicate ShortageCellRed(shortage: int) {
    shortage > 0
  }

  /** `bomRequirements.some(req => req.shortage > 0)`. */
  function ShortageAlert(requirements: seq<BomRequirement>): bool {
    if requirements == [] then false
    else requirements[0].shortage > 0 || ShortageAlert(requirements[1..])
  }

  /** The alert shows exactly when some row's shortage cell is red. */
  lemma {:induction false} ShortageAlertIffRedCell(requirements: seq<BomRequirement>)
    ensures ShortageAlert(requirements) <==> exists k :: 0 <= k < |requirements| && ShortageCellRed(requirements[k].shortage)
    decreases |requirements|
  {
    if requirements != [] {
      ShortageAlertIffRedCell(requirements[1..]);
      if ShortageAlert(requirements[1..]) {
        var k :| 0 <= k < |requirements[1..]| && ShortageCellRed(requirements[1..][k].shortage);
        assert requirements[k + 1] == requirements[1..][k];
      }
      if exists k :: 0 <= k < |requirements| && ShortageCellRed(requirements[k].shortage) {
        var k :| 0 <= k < |requirements| && ShortageCellRed(requirements[k].shortage);
        if k > 0 {
          assert requirements[1..][k - 1] == requirements[k];
        }
      }
    }
  }

  /** The messages of the completion form's rules. */
  datatype CompletionError = FieldRequired | NotPositiveInteger | ExceedsPlanned

  predicate IsWhole(v: real) {
    v == v.Floor as real
  }

  /**
   * The errors the completion form shows for a `quantity_produced` value (an
   * InputNumber value, empty as None): the required rule alone for an empty
   * field, otherwise the positive-integer rule and the rule against exceeding
   * the planned quantity, each when it fails.
   */
  function CompletionErrors(value: Option<real>, planned: int): seq<CompletionError> {
    match value
    case None => [FieldRequired]
    case Some(v) =>
      (if !IsWhole(v) || v < 1.0 then [NotPositiveInteger] else [])
      + (if v > planned as real then [ExceedsPlanned] else [])
  }

  /** The completion form accepts exactly a whole number from 1 up to the planned quantity. */
  lemma CompletionAcceptsExactly(value: Option<real>, planned: int)
    ensures CompletionErrors(value, planned) == [] <==>
            value.Some? && IsWhole(value.value) && 1.0 <= value.value <= planned as real
  {
  }

  /** The value the completion form starts with: `quantity_planned`. */
  function CompletionDefault(planned: int): Option<real> {
    Some(planned as real)
  }

  /** The default is accepted exactly when the planned quantity is at least one. */
  lemma CompletionDefaultAccepted(planned: int)
    ensures CompletionErrors(CompletionDefault(planned), planned) == [] <==> planned >= 1
  {
    CompletionAcceptsExactly(CompletionDefault(planned), planned);
    assert IsWhole(planned as real);
  }

  /** The order being edited in the work-order modal: its id, when it has one, and its status. */
  datatype WoDraft = WoDraft(id: Option<int>, status: WoStatus)

  /** `handleAdd`: a draft with no id and status pending. */
  function NewWorkOrderDraft(): WoDraft {
    WoDraft(None, WoPending)
  }

  datatype SubmitRequest = CreateWorkOrder | UpdateWorkOrder(id: int)

  /** `handleSubmit`: update when the draft's id is truthy, otherwise create. */
  function WoSubmitRequest(editing: Option<WoDraft>): SubmitRequest {
    if editing.Some? && editing.value.id.Some? && editing.value.id.value != 0
    then UpdateWorkOrder(editing.value.id.value)
    else CreateWorkOrder
  }

  /** A newly added work order starts pending and is submitted as a creation; an edited stored one as an update. */
  lemma NewWorkOrderIsCreated(id: int, status: WoStatus)
    ensures NewWorkOrderDraft().status == WoPending
    ensures WoSubmitRequest(Some(NewWorkOrderDraft())) == CreateWorkOrder
    ensures WoSubmitRequest(None) == CreateWorkOrder
    ensures id != 0 ==> WoSubmitRequest(Some(WoDraft(Some(id), status))) == UpdateWorkOrder(id)
  {
  }
}
