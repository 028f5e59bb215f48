/** Deliveries of backend/src/controllers/deliveryController.ts: scheduling
    one ships its order, completing it records the measurements, the fuel
    cost per ton carried, and marks the order delivered. */
module Delivery {
  import opened Common
  import opened Sales

  /** One entry of a delivery's JSON item list; its quantity may be missing. */
  datatype Load = Load(productId: string, quantity: Option<real>)

  /** A JavaScript number that is either a value or NaN. */
  datatype Number = Value(value: real) | NaN

  /** A row of deliveries (vehicle, driver, dates and timestamps left out). */
  datatype Delivery = Delivery(
    id: nat, orderId: nat, items: Option<seq<Load>>, deliveryAddress: Option<string>,
    status: string, actualDistanceKm: Option<real>, fuelConsumedLiters: Option<real>,
    fuelCost: Option<real>, deliveryTimeMinutes: Option<int>, costPerTon: Option<Number>,
    notes: Option<string>)

  /** The measurements completeDelivery receives; each left out, null or given. */
  datatype Completion = Completion(
    actualDistanceKm: Arg<real>, fuelConsumedLiters: Arg<real>, fuelCost: Arg<real>,
    deliveryTimeMinutes: Arg<int>, notes: Arg<string>)

  const DeliveryNotFound := "Livraison non trouvée"
  /** What reducing a null item list raises. */
  const ItemsNull := "Cannot read properties of null (reading 'reduce')"

  /** `item.quantity || 0` */
  function Weight(l: Load): real {
    l.quantity.GetOr(0.0)
  }

  /** The load weight: the quantities of the items summed, a missing or zero quantity counting as 0. */
  function TotalWeight(items: seq<Load>): (r: real)
    ensures (forall i :: 0 <= i < |items| ==> Weight(items[i]) <= 0.0) ==> r <= 0.0
    decreases |items|
  {
    if items == [] then 0.0 else TotalWeight(items[..|items| - 1]) + Weight(items[|items| - 1])
  }

  /** Loads without a quantity weigh nothing. */
  lemma {:induction false} MissingQuantitiesWeighNothing(items: seq<Load>)
    requires forall i :: 0 <= i < |items| ==> items[i].quantity.None?
    ensures TotalWeight(items) == 0.0
    decreases |items|
  {
    if items != [] {
      MissingQuantitiesWeighNothing(items[..|items| - 1]);
    }
  }

  /** With no negative quantity, the total weight is not negative. */
  lemma {:induction false} TotalWeightNonNegative(items: seq<Load>)
    requires forall i :: 0 <= i < |items| ==> Weight(items[i]) >= 0.0
    ensures TotalWeight(items) >= 0.0
    decreases |items|
  {
    if items != [] {
      TotalWeightNonNegative(items[..|items| - 1]);
    }
  }

  /** The fuel cost per ton carried when the weight is positive, and 0 otherwise.
      A null fuel cost divides as 0; a missing one gives NaN. */
  function CostPerTon(fuelCost: Arg<real>, totalWeight: real): (r: Number)
    ensures totalWeight <= 0.0 ==> r == Value(0.0)
    ensures totalWeight > 0.0 && fuelCost.Absent? ==> r == NaN
    ensures totalWeight > 0.0 && fuelCost.Null? ==> r == Value(0.0)
  {
    if totalWeight <= 0.0 then Value(0.0)
    else match fuelCost
      case Absent => NaN
      case Null => Value(0.0)
      case Given(f) => Value(f / (totalWeight / 1000.0))
  }

  /** The cost per ton times the tons carried gives back the fuel cost. */
  lemma CostPerTonRoundTrip(fuelCost: real, totalWeight: real)
    requires totalWeight > 0.0
    ensures CostPerTon(Given(fuelCost), totalWeight).Value?
    ensures CostPerTon(Given(fuelCost), totalWeight).value * (totalWeight / 1000.0) == fuelCost
  {
  }

  /** `COALESCE($n, column)`: a left-out or null argument keeps the stored value. */
  function Coalesce<T>(a: Arg<T>, stored: Option<T>): (r: Option<T>)
    ensures a.Given? ==> r == Some(a.value)
    ensures !a.Given? ==> r == stored
  {
    if a.Given? then Some(a.value) else stored
  }

  /** The delivery row after completion, given its total weight. */
  function Completed(d: Delivery, c: Completion, totalWeight: real): (r: Delivery)
    ensures r.status == "delivered" && r.id == d.id && r.orderId == d.orderId && r.items == d.items
    ensures r.costPerTon == Some(CostPerTon(c.fuelCost, totalWeight))
  {
    d.(status := "delivered",
       actualDistanceKm := Coalesce(c.actualDistanceKm, d.actualDistanceKm),
       fuelConsumedLiters := Coalesce(c.fuelConsumedLiters, d.fuelConsumedLiters),
       fuelCost := Coalesce(c.fuelCost, d.fuelCost),
       deliveryTimeMinutes := Coalesce(c.deliveryTimeMinutes, d.deliveryTimeMinutes),
       costPerTon := Some(CostPerTon(c.fuelCost, totalWeight)),
       notes := Coalesce(c.notes, d.notes))
  }

  /** Completing with no measurement keeps every measured field. */
  lemma CompletionWithoutMeasurements(d: Delivery, w: real)
    ensures var r := Completed(d, Completion(Absent, Null, Absent, Null, Absent), w);
      && r.actualDistanceKm == d.actualDistanceKm && r.fuelConsumedLiters == d.fuelConsumedLiters
      && r.fuelCost == d.fuelCost && r.deliveryTimeMinutes == d.deliveryTimeMinutes && r.notes == d.notes
  {
  }

  /** The deliveries table, updated in place; ids are positions. */
  class DeliveryStore {
    var deliveries: seq<Delivery>

    ghost predicate Valid()
      reads this
    {
      forall i :: 0 <= i < |deliveries| ==> deliveries[i].id == i
    }

    constructor ()
      ensures Valid() && deliveries == []
    {
      deliveries := [];
    }

    /** createDelivery: a scheduled delivery, and its order marked shipped. */
    method CreateDelivery(sales: SalesStore, orderId: nat, items: Option<seq<Load>>, deliveryAddress: Option<string>)
      returns (d: Delivery)
      requires Valid() && sales.Valid()
      modifies this, sales
      ensures Valid() && sales.Valid()
      ensures d == Delivery(|old(deliveries)|, orderId, items, deliveryAddress, "scheduled", None, None, None, None, None, None)
      ensures deliveries == old(deliveries) + [d]
      ensures sales.quotes == old(sales.quotes)
      ensures orderId < |old(sales.orders)| ==>
        sales.orders == old(sales.orders)[orderId := old(sales.orders)[orderId].(status := "shipped")]
      ensures orderId >= |old(sales.orders)| ==> sales.orders == old(sales.orders)
    {
      d := Delivery(|deliveries|, orderId, items, deliveryAddress, "scheduled", None, None, None, None, None, None);
      deliveries := deliveries + [d];
      sales.SetOrderStatus(orderId, "shipped");
    }

    /** completeDelivery: 404 for an unknown delivery; a null item list
        throws before anything is written; otherwise the row is completed
        and its order marked delivered. */
    method CompleteDelivery(sales: SalesStore, id: nat, c: Completion) returns (r: Result<Delivery, string>)
      requires Valid() && sales.Valid()
      modifies this, sales
      ensures Valid() && sales.Valid() && sales.quotes == old(sales.quotes)
      ensures id >= |old(deliveries)| ==>
        r == Err(DeliveryNotFound) && deliveries == old(deliveries) && sales.orders == old(sales.orders)
      ensures id < |old(deliveries)| && old(deliveries)[id].items.None? ==>
        r == Err(ItemsNull) && deliveries == old(deliveries) && sales.orders == old(sales.orders)
      ensures id < |old(deliveries)| && old(deliveries)[id].items.Some? ==>
        var d := old(deliveries)[id];
        && r == Ok(Completed(d, c, TotalWeight(d.items.value)))
        && deliveries == old(deliveries)[id := r.value]
        && (d.orderId < |old(sales.orders)| ==>
              sales.orders == old(sales.orders)[d.orderId := old(sales.orders)[d.orderId].(status := "delivered")])
        && (d.orderId >= |old(sales.orders)| ==> sales.orders == old(sales.orders))
    {
      if id >= |deliveries| {
        return Err(DeliveryNotFound);
      }
      var d := deliveries[id];
      if d.items.None? {
        return Err(ItemsNull);
      }
      var totalWeight := TotalWeight(d.items.value);
      var done := Completed(d, c, totalWeight);
      deliveries := deliveries[id := done];
      sales.SetOrderStatus(d.orderId, "delivered");
      r := Ok(done);
    }
  }

  /** A quote converted, its order shipped and delivered, in one store. */
  method OrderLifecycle() returns (sales: SalesStore, fleet: DeliveryStore)
    ensures |sales.orders| == 1 && sales.orders[0].status == "delivered"
    ensures |sales.quotes| == 1 && sales.quotes[0].status == "converted"
    ensures |fleet.deliveries| == 1 && fleet.deliveries[0].costPerTon == Some(Value(50.0))
  {
    sales := new SalesStore();
    fleet := new DeliveryStore();
    var q := sales.CreateQuote("customer-1", Some([Line("bricks", 2.0, 100.0)]), Absent, None, None, None);
    var o := sales.ConvertQuoteToOrder(0, None);
    assert sales.orders[0].status == "pending";
    var d := fleet.CreateDelivery(sales, 0, Some([Load("bricks", Some(2000.0))]), None);
    assert sales.orders[0].status == "shipped";
    var loads := [Load("bricks", Some(2000.0))];
    assert TotalWeight(loads) == 2000.0 by {
      assert loads[..0] == [];
    }
    var done := fleet.CompleteDelivery(sales, 0, Completion(Given(12.0), Absent, Given(100.0), Absent, Absent));
  }
}
