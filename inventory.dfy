/** The stock ledger of backend/src/controllers/inventoryController.ts:
    entries, exits and physical counts append movements; stock levels and
    low-stock alerts are sums over the completed movements. */
module Inventory {
  import opened Common

  datatype Kind = In | Out

  /** A row of inventory_stock_movements (lot, supplier, prices and
      timestamps left out). */
  datatype Movement = Movement(itemId: string, kind: Kind, quantity: real, completed: bool, notes: Option<string>)

  /** A row of inventory_counts. */
  datatype Count = Count(itemId: string, theoretical: real, counted: real, difference: real, notes: Option<string>)

  /** A row of inventory_items. */
  datatype Item = Item(id: string, name: string, itemType: string, minStockLevel: real)

  datatype ExitError = InsufficientStock(available: real, requested: real)

  const RegularisationNote := "Régularisation inventaire"

  // ---------------------------------------------------------------- sums

  /** `SUM(quantity)` over the completed entries of the item: the stock the
      service shows and checks exits against. */
  function InSum(ms: seq<Movement>, itemId: string): (r: real)
    ensures (forall i :: 0 <= i < |ms| ==> ms[i].quantity >= 0.0) ==> r >= 0.0
    decreases |ms|
  {
    if ms == [] then 0.0
    else
      var m := ms[|ms| - 1];
      InSum(ms[..|ms| - 1], itemId) + (if m.itemId == itemId && m.completed && m.kind == In then m.quantity else 0.0)
  }

  /** `SUM(quantity)` over the completed exits of the item. */
  function OutSum(ms: seq<Movement>, itemId: string): real
    decreases |ms|
  {
    if ms == [] then 0.0
    else
      var m := ms[|ms| - 1];
      OutSum(ms[..|ms| - 1], itemId) + (if m.itemId == itemId && m.completed && m.kind == Out then m.quantity else 0.0)
  }

  /** The signed contribution of one movement: entries count up, anything else down. */
  function Signed(m: Movement): real {
    if m.kind == In then m.quantity else -m.quantity
  }

  /** The theoretical stock performInventory computes: the signed sum over
      completed movements of the item. */
  function Balance(ms: seq<Movement>, itemId: string): (r: real)
    ensures (forall i :: 0 <= i < |ms| ==> ms[i].itemId != itemId || !ms[i].completed) ==> r == 0.0
    decreases |ms|
  {
    if ms == [] then 0.0
    else
      var m := ms[|ms| - 1];
      Balance(ms[..|ms| - 1], itemId) + (if m.itemId == itemId && m.completed then Signed(m) else 0.0)
  }

  lemma AppendUnfolds(ms: seq<Movement>, m: Movement, itemId: string)
    ensures InSum(ms + [m], itemId) == InSum(ms, itemId) + (if m.itemId == itemId && m.completed && m.kind == In then m.quantity else 0.0)
    ensures OutSum(ms + [m], itemId) == OutSum(ms, itemId) + (if m.itemId == itemId && m.completed && m.kind == Out then m.quantity else 0.0)
    ensures Balance(ms + [m], itemId) == Balance(ms, itemId) + (if m.itemId == itemId && m.completed then Signed(m) else 0.0)
  {
    assert (ms + [m])[..|ms|] == ms;
  }

  /** The theoretical stock is entries minus exits. */
  lemma {:induction false} BalanceIsInMinusOut(ms: seq<Movement>, itemId: string)
    ensures Balance(ms, itemId) == InSum(ms, itemId) - OutSum(ms, itemId)
    decreases |ms|
  {
    if ms != [] {
      BalanceIsInMinusOut(ms[..|ms| - 1], itemId);
    }
  }

  // ---------------------------------------------------------------- decisions

  /** recordStockExit's check: refused iff the completed entries of the item
      sum to less than the requested quantity. */
  function ExitCheck(ms: seq<Movement>, itemId: string, quantity: real): (r: Option<ExitError>)
    ensures r.Some? <==> InSum(ms, itemId) < quantity
    ensures r.Some? ==> r.value == InsufficientStock(InSum(ms, itemId), quantity)
  {
    if InSum(ms, itemId) < quantity then Some(InsufficientStock(InSum(ms, itemId), quantity)) else None
  }

  function Abs(x: real): (r: real)
    ensures r >= 0.0 && (r == x || r == -x)
  {
    if x < 0.0 then -x else x
  }

  /** The movement performInventory appends, if any, to bring the theoretical
      stock to the counted quantity. */
  function Regularisation(ms: seq<Movement>, itemId: string, counted: real): (r: Option<Movement>)
    ensures r.None? <==> counted == Balance(ms, itemId)
    ensures r.Some? ==> r.value.itemId == itemId && r.value.completed && r.value.quantity > 0.0
    ensures r.Some? ==> (r.value.kind == In <==> counted > Balance(ms, itemId))
  {
    var difference := counted - Balance(ms, itemId);
    if difference == 0.0 then None
    else Some(Movement(itemId, if difference > 0.0 then In else Out, Abs(difference), true, Some(RegularisationNote)))
  }

  function AppendOpt(ms: seq<Movement>, m: Option<Movement>): seq<Movement> {
    if m.Some? then ms + [m.value] else ms
  }

  /** After the regularisation the theoretical stock is the counted quantity,
      and no movement is appended when they already agree. */
  lemma RegularisationBalances(ms: seq<Movement>, itemId: string, counted: real)
    ensures Balance(AppendOpt(ms, Regularisation(ms, itemId, counted)), itemId) == counted
    ensures Regularisation(ms, itemId, counted).None? <==> Balance(ms, itemId) == counted
    ensures Regularisation(ms, itemId, counted).Some? ==> Regularisation(ms, itemId, counted).value.quantity > 0.0
  {
    var r := Regularisation(ms, itemId, counted);
    if r.Some? {
      AppendUnfolds(ms, r.value, itemId);
    }
  }

  /** The regularisation touches no other item's stock. */
  lemma RegularisationIsLocal(ms: seq<Movement>, itemId: string, counted: real, other: string)
    requires other != itemId
    ensures Balance(AppendOpt(ms, Regularisation(ms, itemId, counted)), other) == Balance(ms, other)
    ensures InSum(AppendOpt(ms, Regularisation(ms, itemId, counted)), other) == InSum(ms, other)
  {
    var r := Regularisation(ms, itemId, counted);
    if r.Some? {
      AppendUnfolds(ms, r.value, other);
    }
  }

  /** A stock entry raises the item's stock by its quantity and no other item's. */
  lemma EntryRaisesStock(ms: seq<Movement>, itemId: string, quantity: real, notes: Option<string>, other: string)
    requires other != itemId
    ensures InSum(ms + [Movement(itemId, In, quantity, true, notes)], itemId) == InSum(ms, itemId) + quantity
    ensures Balance(ms + [Movement(itemId, In, quantity, true, notes)], itemId) == Balance(ms, itemId) + quantity
    ensures InSum(ms + [Movement(itemId, In, quantity, true, notes)], other) == InSum(ms, other)
  {
    AppendUnfolds(ms, Movement(itemId, In, quantity, true, notes), itemId);
    AppendUnfolds(ms, Movement(itemId, In, quantity, true, notes), other);
  }

  /** An accepted exit does not lower the stock the next check sees, so the
      same exit is accepted again, and the theoretical stock drops twice. */
  lemma ExitsAreNotSubtracted(ms: seq<Movement>, itemId: string, quantity: real)
    requires ExitCheck(ms, itemId, quantity).None?
    ensures var once := ms + [Movement(itemId, Out, quantity, true, None)];
      && ExitCheck(once, itemId, quantity).None?
      && Balance(once + [Movement(itemId, Out, quantity, true, None)], itemId) == Balance(ms, itemId) - 2.0 * quantity
  {
    var m := Movement(itemId, Out, quantity, true, None);
    AppendUnfolds(ms, m, itemId);
    AppendUnfolds(ms + [m], m, itemId);
  }

  // ---------------------------------------------------------------- alerts

  datatype AlertLevel = Critical | Low | Normal

  /** The `alert_level` CASE of getLowStockAlerts. */
  function LevelOf(current: real, minStockLevel: real): AlertLevel {
    if current == 0.0 then Critical else if current <= minStockLevel then Low else Normal
  }

  /** One row of the stock views. */
  datatype StockRow = StockRow(item: Item, currentStock: real, quantityNeeded: real, isLowStock: bool, level: AlertLevel)

  function RowOf(item: Item, ms: seq<Movement>): (r: StockRow)
    ensures r.currentStock == InSum(ms, item.id)
    ensures r.isLowStock <==> InSum(ms, item.id) <= item.minStockLevel
    ensures r.quantityNeeded == item.minStockLevel - InSum(ms, item.id)
  {
    var current := InSum(ms, item.id);
    StockRow(item, current, item.minStockLevel - current, current <= item.minStockLevel, LevelOf(current, item.minStockLevel))
  }

  /** Listed alerts are low or critical, never normal; critical means no stock at all. */
  lemma AlertLevels(item: Item, ms: seq<Movement>)
    requires RowOf(item, ms).isLowStock
    ensures RowOf(item, ms).level != Normal
    ensures RowOf(item, ms).level == Critical <==> InSum(ms, item.id) == 0.0
  {
  }

  /** The rank of the first ORDER BY key: critical rows first. */
  function Rank(r: StockRow): int {
    if r.currentStock == 0.0 then 1 else 2
  }

  predicate AlertLe(a: StockRow, b: StockRow) {
    Rank(a) < Rank(b) || (Rank(a) == Rank(b) && a.currentStock <= b.currentStock)
  }

  lemma AlertLeTotal()
    ensures Total(AlertLe)
  {
  }

  /** The `HAVING` filter: the rows whose stock is at or below the minimum, in table order. */
  function LowRows(items: seq<Item>, ms: seq<Movement>): (r: seq<StockRow>)
    ensures forall x :: x in r ==> x.isLowStock
    ensures forall i :: 0 <= i < |items| && RowOf(items[i], ms).isLowStock ==> RowOf(items[i], ms) in r
    ensures forall x :: x in r ==> exists i :: 0 <= i < |items| && x == RowOf(items[i], ms)
  {
    if items == [] then []
    else
      var rest := LowRows(items[1..], ms);
      assert forall x :: x in rest ==> exists i :: 0 <= i < |items| && x == RowOf(items[i], ms) by {
        forall x | x in rest ensures exists i :: 0 <= i < |items| && x == RowOf(items[i], ms) {
          var j :| 0 <= j < |items[1..]| && x == RowOf(items[1..][j], ms);
          assert x == RowOf(items[j + 1], ms);
        }
      }
      assert forall i :: 1 <= i < |items| ==> items[i] == items[1..][i - 1];
      if RowOf(items[0], ms).isLowStock then [RowOf(items[0], ms)] + rest else rest
  }

  /** getLowStockAlerts: the low-stock rows, critical first, then by ascending stock. */
  function LowStockAlerts(items: seq<Item>, ms: seq<Movement>): (r: seq<StockRow>)
    ensures multiset(r) == multiset(LowRows(items, ms))
    ensures Sorted(r, AlertLe)
  {
    AlertLeTotal();
    SortBySorted(LowRows(items, ms), AlertLe);
    SortBy(LowRows(items, ms), AlertLe)
  }

  /** In the alert list, every row before a critical row is critical. */
  lemma {:induction false} CriticalFirst(items: seq<Item>, ms: seq<Movement>, i: nat, j: nat)
    requires i < j < |LowStockAlerts(items, ms)|
    requires LowStockAlerts(items, ms)[j].currentStock == 0.0
    ensures LowStockAlerts(items, ms)[i].currentStock == 0.0
    decreases j - i
  {
    var r := LowStockAlerts(items, ms);
    assert AlertLe(r[j - 1], r[j]);
    if i < j - 1 {
      CriticalFirst(items, ms, i, j - 1);
    }
  }

  /** An item is listed iff its entries sum to at most its minimum level. */
  lemma AlertedIffLow(items: seq<Item>, ms: seq<Movement>, k: nat)
    requires k < |items|
    ensures RowOf(items[k], ms) in LowStockAlerts(items, ms) <==> InSum(ms, items[k].id) <= items[k].minStockLevel
  {
    SameElements(LowStockAlerts(items, ms), LowRows(items, ms));
  }

  predicate NameLe(a: StockRow, b: StockRow) {
    StrLe(a.item.name, b.item.name)
  }

  lemma NameLeTotal()
    ensures Total(NameLe)
  {
    forall a: StockRow, b: StockRow ensures NameLe(a, b) || NameLe(b, a) {
      StrLeTotal(a.item.name, b.item.name);
    }
  }

  /** The rows of the items passing the type filter and, when asked, the low-stock filter. */
  function ViewRows(items: seq<Item>, ms: seq<Movement>, itemType: Option<string>, lowStockOnly: bool): (r: seq<StockRow>)
    ensures forall x :: x in r ==> (lowStockOnly ==> x.isLowStock) && (Truthy(itemType) ==> x.item.itemType == itemType.value)
    ensures forall i :: (0 <= i < |items| && (Truthy(itemType) ==> items[i].itemType == itemType.value)
                         && (lowStockOnly ==> RowOf(items[i], ms).isLowStock)) ==> RowOf(items[i], ms) in r
    ensures forall x :: x in r ==> exists i :: 0 <= i < |items| && x == RowOf(items[i], ms)
  {
    if items == [] then []
    else
      var rest := ViewRows(items[1..], ms, itemType, lowStockOnly);
      assert forall x :: x in rest ==> exists i :: 0 <= i < |items| && x == RowOf(items[i], ms) by {
        forall x | x in rest ensures exists i :: 0 <= i < |items| && x == RowOf(items[i], ms) {
          var j :| 0 <= j < |items[1..]| && x == RowOf(items[1..][j], ms);
          assert x == RowOf(items[j + 1], ms);
        }
      }
      assert forall i :: 1 <= i < |items| ==> items[i] == items[1..][i - 1];
      var x := RowOf(items[0], ms);
      if (Truthy(itemType) ==> items[0].itemType == itemType.value) && (lowStockOnly ==> x.isLowStock)
      then [x] + rest else rest
  }

  /** getInventory: per item its stock and low-stock flag, filtered by type
      when one is given and to low-stock items when `low_stock_only` is the
      string 'true', ordered by name. */
  function GetInventory(items: seq<Item>, ms: seq<Movement>, itemType: Option<string>, lowStockOnly: Option<string>)
    : (r: seq<StockRow>)
    ensures multiset(r) == multiset(ViewRows(items, ms, itemType, lowStockOnly == Some("true")))
    ensures Sorted(r, NameLe)
  {
    NameLeTotal();
    var rows := ViewRows(items, ms, itemType, lowStockOnly == Some("true"));
    SortBySorted(rows, NameLe);
    SortBy(rows, NameLe)
  }

  // ---------------------------------------------------------------- the ledger

  /** The movement and count tables, appended to in place. */
  class StockLedger {
    var movements: seq<Movement>
    var counts: seq<Count>

    constructor ()
      ensures movements == [] && counts == []
    {
      movements, counts := [], [];
    }

    /** recordStockEntry: one completed entry. */
    method RecordStockEntry(itemId: string, quantity: real, notes: Option<string>) returns (m: Movement)
      modifies this
      ensures m == Movement(itemId, In, quantity, true, notes)
      ensures movements == old(movements) + [m] && counts == old(counts)
    {
      m := Movement(itemId, In, quantity, true, notes);
      movements := movements + [m];
    }

    /** recordStockExit: refused when the entries do not cover the quantity;
        otherwise one completed exit. */
    method RecordStockExit(itemId: string, quantity: real, notes: Option<string>) returns (r: Result<Movement, ExitError>)
      modifies this
      ensures counts == old(counts)
      ensures ExitCheck(old(movements), itemId, quantity).Some? ==>
        r == Err(ExitCheck(old(movements), itemId, quantity).value) && movements == old(movements)
      ensures ExitCheck(old(movements), itemId, quantity).None? ==>
        r == Ok(Movement(itemId, Out, quantity, true, notes)) && movements == old(movements) + [r.value]
    {
      var available := InSum(movements, itemId);
      if available < quantity {
        return Err(InsufficientStock(available, quantity));
      }
      var m := Movement(itemId, Out, quantity, true, notes);
      movements := movements + [m];
      r := Ok(m);
    }

    /** performInventory: records the count, then regularises the ledger so
        the theoretical stock equals the counted quantity. */
    method PerformInventory(itemId: string, counted: real, notes: Option<string>) returns (c: Count)
      modifies this
      ensures c == Count(itemId, Balance(old(movements), itemId), counted, counted - Balance(old(movements), itemId), notes)
      ensures counts == old(counts) + [c]
      ensures movements == AppendOpt(old(movements), Regularisation(old(movements), itemId, counted))
      ensures Balance(movements, itemId) == counted
    {
      var theoretical := Balance(movements, itemId);
      var difference := counted - theoretical;
      c := Count(itemId, theoretical, counted, difference, notes);
      counts := counts + [c];
      RegularisationBalances(movements, itemId, counted);
      if difference != 0.0 {
        movements := movements + [Movement(itemId, if difference > 0.0 then In else Out, Abs(difference), true, Some(RegularisationNote))];
      }
    }
  }
}
