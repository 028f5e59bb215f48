/** The arithmetic of backend/src/controllers/costsController.ts on the rows
    its queries return: cost per order and per ton, margins and their rates,
    the period format of the cost evolution, and the cost breakdown. Dates
    are day numbers; money and quantities are exact reals. */
module Costs {
  import opened Common

  /** A row of production_orders, with the columns the cost reports read. */
  datatype ProductionOrder = ProductionOrder(
    id: nat, productId: Option<nat>, productionDate: int, status: string, quantityProduced: real,
    rawMaterialCost: Option<real>, laborCost: Option<real>, energyCost: Option<real>,
    maintenanceCost: Option<real>, otherCosts: Option<real>)

  /** `COALESCE(column, 0)` for each cost component. */
  function RawMaterial(o: ProductionOrder): real { o.rawMaterialCost.GetOr(0.0) }
  function Labor(o: ProductionOrder): real { o.laborCost.GetOr(0.0) }
  function Energy(o: ProductionOrder): real { o.energyCost.GetOr(0.0) }
  function Maintenance(o: ProductionOrder): real { o.maintenanceCost.GetOr(0.0) }
  function Other(o: ProductionOrder): real { o.otherCosts.GetOr(0.0) }

  /** The five components of an order's cost, a missing one counting as 0. */
  function TotalCost(o: ProductionOrder): (r: real)
    ensures RawMaterial(o) >= 0.0 && Labor(o) >= 0.0 && Energy(o) >= 0.0 && Maintenance(o) >= 0.0 && Other(o) >= 0.0
      ==> r >= 0.0
    ensures (o.rawMaterialCost.None? && o.laborCost.None? && o.energyCost.None?
             && o.maintenanceCost.None? && o.otherCosts.None?) ==> r == 0.0
  {
    RawMaterial(o) + Labor(o) + Energy(o) + Maintenance(o) + Other(o)
  }

  // ---------------------------------------------------------------- per order

  /** The query string of calculateProductionCost; an empty value is absent. */
  datatype CostQuery = CostQuery(orderId: Option<nat>, startDate: Option<int>, endDate: Option<int>)

  /** The WHERE clause built from the query: the order id wins over the date
      range, which applies only when both ends are given. */
  predicate InScope(q: CostQuery, o: ProductionOrder) {
    if q.orderId.Some? then o.id == q.orderId.value
    else if q.startDate.Some? && q.endDate.Some? then q.startDate.value <= o.productionDate <= q.endDate.value
    else true
  }

  /** Only completed orders that produced something are costed. */
  predicate Costable(q: CostQuery, o: ProductionOrder) {
    InScope(q, o) && o.status == "completed" && o.quantityProduced > 0.0
  }

  /** One line of calculateProductionCost's answer. */
  datatype OrderCost = OrderCost(orderId: nat, quantityProduced: real, totalCost: real, costPerTon: real)

  /** `total_cost / (quantity_produced / 1000)` for an order that produced something. */
  function CostOf(o: ProductionOrder): (c: OrderCost)
    requires o.quantityProduced > 0.0
    ensures c.orderId == o.id && c.quantityProduced == o.quantityProduced && c.totalCost == TotalCost(o)
  {
    OrderCost(o.id, o.quantityProduced, TotalCost(o), TotalCost(o) / (o.quantityProduced / 1000.0))
  }

  /** The cost per ton times the tons produced gives back the total cost. */
  lemma CostOfRoundTrip(o: ProductionOrder)
    requires o.quantityProduced > 0.0
    ensures CostOf(o).costPerTon * (CostOf(o).quantityProduced / 1000.0) == CostOf(o).totalCost
  {
  }

  /** An order with no recorded cost costs nothing, per ton too. */
  lemma UnrecordedCostsAreZero(o: ProductionOrder)
    requires o.quantityProduced > 0.0
    requires o.rawMaterialCost.None? && o.laborCost.None? && o.energyCost.None?
    requires o.maintenanceCost.None? && o.otherCosts.None?
    ensures CostOf(o).totalCost == 0.0 && CostOf(o).costPerTon == 0.0
  {
  }

  /** calculateProductionCost: the costable rows, in the order the query returns them. */
  function ProductionCosts(orders: seq<ProductionOrder>, q: CostQuery): (r: seq<OrderCost>)
    ensures |r| <= |orders|
    decreases |orders|
  {
    if orders == [] then []
    else
      var rest := ProductionCosts(orders[1..], q);
      if Costable(q, orders[0]) then [CostOf(orders[0])] + rest else rest
  }

  /** A line is answered exactly when it is the cost of a costable row. */
  lemma {:induction false} ProductionCostsExactly(orders: seq<ProductionOrder>, q: CostQuery, c: OrderCost)
    ensures c in ProductionCosts(orders, q) <==> exists o :: o in orders && Costable(q, o) && c == CostOf(o)
    decreases |orders|
  {
    if orders != [] {
      ProductionCostsExactly(orders[1..], q, c);
      assert forall o :: o in orders <==> o == orders[0] || o in orders[1..];
    }
  }

  /** With an order id, the date range is ignored. */
  lemma {:induction false} OrderIdWinsOverDates(orders: seq<ProductionOrder>, id: nat, s: Option<int>, e: Option<int>)
    ensures ProductionCosts(orders, CostQuery(Some(id), s, e)) == ProductionCosts(orders, CostQuery(Some(id), None, None))
    decreases |orders|
  {
    if orders != [] {
      OrderIdWinsOverDates(orders[1..], id, s, e);
    }
  }

  /** A range with one end missing filters nothing. */
  lemma {:induction false} HalfRangeFiltersNothing(orders: seq<ProductionOrder>, s: Option<int>, e: Option<int>)
    requires s.None? || e.None?
    ensures ProductionCosts(orders, CostQuery(None, s, e)) == ProductionCosts(orders, CostQuery(None, None, None))
    decreases |orders|
  {
    if orders != [] {
      HalfRangeFiltersNothing(orders[1..], s, e);
    }
  }

  // ------------------------------------------------------------ profitability

  /** The query string of getProfitability; unlike the costing query, its
      filters add up. */
  datatype ProfitQuery = ProfitQuery(startDate: Option<int>, endDate: Option<int>, productId: Option<nat>)

  /** getProfitability's WHERE clause. */
  predicate ProfitScope(q: ProfitQuery, o: ProductionOrder) {
    && o.status == "completed"
    && (q.startDate.Some? && q.endDate.Some? ==> q.startDate.value <= o.productionDate <= q.endDate.value)
    && (q.productId.Some? ==> o.productId == q.productId)
  }

  /** Every filter of getProfitability narrows the rows; dropping one never loses a row. */
  lemma ProfitFiltersNarrow(q: ProfitQuery, o: ProductionOrder)
    requires ProfitScope(q, o)
    ensures ProfitScope(q.(productId := None), o) && ProfitScope(q.(startDate := None), o)
    ensures ProfitScope(ProfitQuery(None, None, None), o)
  {
  }

  /** A grouped row: summed cost and revenue, NULL when there was nothing to sum. */
  datatype ProfitRow = ProfitRow(productId: Option<nat>, totalCost: Option<real>, totalRevenue: Option<real>)

  datatype Profitability = Profitability(grossMargin: real, grossMarginRate: real, profitabilityRate: real)

  /** The margin and both rates, each rate 0 when its divisor is not positive. */
  function Margins(row: ProfitRow): (p: Profitability)
    ensures row.totalRevenue.GetOr(0.0) <= 0.0 ==> p.grossMarginRate == 0.0
    ensures row.totalCost.GetOr(0.0) <= 0.0 ==> p.profitabilityRate == 0.0
  {
    var cost := row.totalCost.GetOr(0.0);
    var revenue := row.totalRevenue.GetOr(0.0);
    var margin := revenue - cost;
    Profitability(margin,
                  if revenue > 0.0 then (margin / revenue) * 100.0 else 0.0,
                  if cost > 0.0 then (margin / cost) * 100.0 else 0.0)
  }

  /** The margin is what the revenue leaves after the cost; each positive
      divisor times its rate gives back a hundred times the margin. */
  lemma MarginsRoundTrip(row: ProfitRow)
    ensures var p := Margins(row);
      && p.grossMargin + row.totalCost.GetOr(0.0) == row.totalRevenue.GetOr(0.0)
      && (row.totalRevenue.GetOr(0.0) > 0.0 ==> p.grossMarginRate * row.totalRevenue.GetOr(0.0) == p.grossMargin * 100.0)
      && (row.totalCost.GetOr(0.0) > 0.0 ==> p.profitabilityRate * row.totalCost.GetOr(0.0) == p.grossMargin * 100.0)
  {
  }

  /** A positive rate means the revenue exceeds the cost, and a product sold
      at a non-negative cost has a margin rate of at most 100. */
  lemma MarginRateSigns(row: ProfitRow)
    ensures var p := Margins(row); var cost := row.totalCost.GetOr(0.0); var revenue := row.totalRevenue.GetOr(0.0);
      && (revenue > 0.0 ==> (p.grossMarginRate > 0.0 <==> revenue > cost))
      && (cost > 0.0 ==> (p.profitabilityRate > 0.0 <==> revenue > cost))
      && (revenue > 0.0 && cost >= 0.0 ==> p.grossMarginRate <= 100.0)
  {
    var cost := row.totalCost.GetOr(0.0);
    var revenue := row.totalRevenue.GetOr(0.0);
    if revenue > 0.0 {
      assert (revenue - cost) / revenue > 0.0 <==> revenue - cost > 0.0;
      if cost >= 0.0 {
        assert (revenue - cost) / revenue <= 1.0;
      }
    }
    if cost > 0.0 {
      assert (revenue - cost) / cost > 0.0 <==> revenue - cost > 0.0;
    }
  }

  // --------------------------------------------------------------- evolution

  /** getCostEvolution's TO_CHAR format; the period defaults to "month". */
  function DateFormat(period: Option<string>): (f: string)
    ensures f == "IYYY-IW" <==> period == Some("week")
    ensures f == "YYYY-MM-DD" <==> period == Some("day")
    ensures f == "YYYY-MM" <==> period != Some("week") && period != Some("day")
  {
    match period.GetOr("month")
    case "week" => "IYYY-IW"
    case "day" => "YYYY-MM-DD"
    case _ => "YYYY-MM"
  }

  /** The per-order term the evolution averages: raw material, labor and
      energy over the tons produced; NULL (left out of the average) when
      nothing was produced. */
  function EvolutionCostPerTon(o: ProductionOrder): (r: Option<real>)
    ensures r.None? <==> o.quantityProduced == 0.0
  {
    if o.quantityProduced / 1000.0 == 0.0 then None
    else Some((RawMaterial(o) + Labor(o) + Energy(o)) / (o.quantityProduced / 1000.0))
  }

  /** The evolution leaves maintenance and other costs out: for an order
      that produced something it never exceeds the per-order cost per ton when
      those are not negative, and equals it exactly when both are 0. */
  lemma EvolutionOmitsMaintenanceAndOther(o: ProductionOrder)
    requires o.quantityProduced > 0.0 && Maintenance(o) >= 0.0 && Other(o) >= 0.0
    ensures EvolutionCostPerTon(o).Some?
    ensures EvolutionCostPerTon(o).value <= CostOf(o).costPerTon
    ensures EvolutionCostPerTon(o).value == CostOf(o).costPerTon <==> Maintenance(o) + Other(o) == 0.0
  {
    var tons := o.quantityProduced / 1000.0;
    var part := RawMaterial(o) + Labor(o) + Energy(o);
    assert CostOf(o).costPerTon == part / tons + (Maintenance(o) + Other(o)) / tons;
  }

  // --------------------------------------------------------------- breakdown

  /** The completed orders produced within [start, end]. */
  function Period(orders: seq<ProductionOrder>, start: int, end: int): (r: seq<ProductionOrder>)
    ensures forall o :: o in r <==> o in orders && o.status == "completed" && start <= o.productionDate <= end
    decreases |orders|
  {
    if orders == [] then []
    else
      var o := orders[0];
      (if o.status == "completed" && start <= o.productionDate <= end then [o] else []) + Period(orders[1..], start, end)
  }

  /** Σ f over the rows. */
  function Column(rows: seq<ProductionOrder>, f: ProductionOrder -> real): real
    decreases |rows|
  {
    if rows == [] then 0.0 else f(rows[0]) + Column(rows[1..], f)
  }

  /** SQL `SUM`: NULL over no rows. */
  function SqlSum(rows: seq<ProductionOrder>, f: ProductionOrder -> real): (r: Option<real>)
    ensures r.None? <==> rows == []
  {
    if rows == [] then None else Some(Column(rows, f))
  }

  datatype Breakdown = Breakdown(
    rawMaterial: real, labor: real, energy: real, maintenance: real, totalCost: real,
    rawMaterialPct: real, laborPct: real, energyPct: real, maintenancePct: real)

  /** `(part / total) * 100`, or 0 when the total is not positive. */
  function Share(part: real, total: real): real {
    if total > 0.0 then (part / total) * 100.0 else 0.0
  }

  /** The total of the four summed components and each one's share of it. */
  function BreakdownOf(raw: Option<real>, labor: Option<real>, energy: Option<real>, maintenance: Option<real>): (b: Breakdown)
    ensures b.totalCost <= 0.0 ==> b.rawMaterialPct == b.laborPct == b.energyPct == b.maintenancePct == 0.0
  {
    var total := raw.GetOr(0.0) + labor.GetOr(0.0) + energy.GetOr(0.0) + maintenance.GetOr(0.0);
    Breakdown(raw.GetOr(0.0), labor.GetOr(0.0), energy.GetOr(0.0), maintenance.GetOr(0.0), total,
              Share(raw.GetOr(0.0), total), Share(labor.GetOr(0.0), total),
              Share(energy.GetOr(0.0), total), Share(maintenance.GetOr(0.0), total))
  }

  /** A positive total is shared out completely. */
  lemma SharesSumToHundred(raw: Option<real>, labor: Option<real>, energy: Option<real>, maintenance: Option<real>)
    ensures var b := BreakdownOf(raw, labor, energy, maintenance);
      b.totalCost > 0.0 ==> b.rawMaterialPct + b.laborPct + b.energyPct + b.maintenancePct == 100.0
  {
    var b := BreakdownOf(raw, labor, energy, maintenance);
    if b.totalCost > 0.0 {
      FourShares(b.rawMaterial, b.labor, b.energy, b.maintenance);
    }
  }

  /** Four parts' shares of their positive sum add up to 100. */
  lemma FourShares(a: real, b: real, c: real, d: real)
    requires a + b + c + d > 0.0
    ensures Share(a, a + b + c + d) + Share(b, a + b + c + d) + Share(c, a + b + c + d) + Share(d, a + b + c + d) == 100.0
  {
    var t := a + b + c + d;
    SharesAdd(a, b, t);
    SharesAdd(a + b, c, t);
    SharesAdd(a + b + c, d, t);
    assert t / t == 1.0;
  }

  /** Shares of one positive total add up. */
  lemma SharesAdd(x: real, y: real, t: real)
    requires t > 0.0
    ensures Share(x, t) + Share(y, t) == Share(x + y, t)
  {
    assert x / t + y / t == (x + y) / t;
  }

  /** getCostBreakdown over the completed orders produced in [start, end]. */
  function CostBreakdown(orders: seq<ProductionOrder>, start: int, end: int): (b: Breakdown)
    ensures Period(orders, start, end) == [] ==> b.totalCost == 0.0 && b.rawMaterialPct == 0.0
  {
    var p := Period(orders, start, end);
    BreakdownOf(SqlSum(p, RawMaterial), SqlSum(p, Labor), SqlSum(p, Energy), SqlSum(p, Maintenance))
  }

  /** Summing a column commutes with adding the five components. */
  lemma {:induction false} ColumnOfTotal(rows: seq<ProductionOrder>)
    ensures Column(rows, TotalCost)
         == Column(rows, RawMaterial) + Column(rows, Labor) + Column(rows, Energy)
          + Column(rows, Maintenance) + Column(rows, Other)
    decreases |rows|
  {
    if rows != [] {
      ColumnOfTotal(rows[1..]);
    }
  }

  /** The breakdown's total leaves out the other costs: together with them it
      is the sum of the per-order total costs over the same period. */
  lemma BreakdownLeavesOutOtherCosts(orders: seq<ProductionOrder>, start: int, end: int)
    ensures var p := Period(orders, start, end);
      CostBreakdown(orders, start, end).totalCost + Column(p, Other) == Column(p, TotalCost)
  {
    ColumnOfTotal(Period(orders, start, end));
  }
}
