/** Quotes and orders of backend/src/controllers/salesController.ts. */
module Sales {
  import opened Common

  /** One line of a quote's JSON item list. */
  datatype Line = Line(productId: string, quantity: real, unitPrice: real)

  /** A row of sales_quotes (timestamps left out). */
  datatype Quote = Quote(
    id: nat, customerId: string, items: seq<Line>, totalAmount: real,
    validityDays: Option<int>, notes: Option<string>, deliveryAddress: Option<string>,
    status: string, createdBy: Option<string>)

  /** A row of sales_orders (timestamps left out). */
  datatype Order = Order(
    id: nat, quoteId: Option<nat>, customerId: string, items: seq<Line>, totalAmount: real,
    deliveryAddress: Option<string>, status: string, createdBy: Option<string>)

  const DefaultValidityDays := 30
  const QuoteNotFound := "Devis non trouvé"
  /** What iterating over a missing item list raises. */
  const ItemsNotIterable := "items is not iterable"

  /** Σ quantity × unit price over the lines. */
  function QuoteTotal(items: seq<Line>): (r: real)
    ensures (forall i :: 0 <= i < |items| ==> items[i].quantity == 0.0 || items[i].unitPrice == 0.0) ==> r == 0.0
    decreases |items|
  {
    if items == [] then 0.0
    else QuoteTotal(items[..|items| - 1]) + items[|items| - 1].quantity * items[|items| - 1].unitPrice
  }

  /** The total of two lists of lines is the sum of their totals. */
  lemma {:induction false} QuoteTotalAppend(a: seq<Line>, b: seq<Line>)
    ensures QuoteTotal(a + b) == QuoteTotal(a) + QuoteTotal(b)
    decreases |b|
  {
    if b == [] {
      assert a + b == a;
    } else {
      assert (a + b)[..|a + b| - 1] == a + b[..|b| - 1];
      QuoteTotalAppend(a, b[..|b| - 1]);
    }
  }

  /** With no negative quantity or price, the total is not negative. */
  lemma {:induction false} QuoteTotalNonNegative(items: seq<Line>)
    requires forall i :: 0 <= i < |items| ==> items[i].quantity >= 0.0 && items[i].unitPrice >= 0.0
    ensures QuoteTotal(items) >= 0.0
    decreases |items|
  {
    if items != [] {
      QuoteTotalNonNegative(items[..|items| - 1]);
    }
  }

  /** The quote total, accumulated line by line as quantity times unit price. */
  method ComputeTotal(items: seq<Line>) returns (total: real)
    ensures total == QuoteTotal(items)
  {
    total := 0.0;
    for i := 0 to |items|
      invariant total == QuoteTotal(items[..i])
    {
      assert items[..i + 1][..i] == items[..i];
      total := total + items[i].quantity * items[i].unitPrice;
    }
    assert items[..|items|] == items;
  }

  /** `validity_days = 30`: the default applies only when the field is left out. */
  function Validity(v: Arg<int>): (r: Option<int>)
    ensures v.Absent? ==> r == Some(DefaultValidityDays)
    ensures v.Null? ==> r.None?
    ensures v.Given? ==> r == Some(v.value)
  {
    match v
    case Absent => Some(DefaultValidityDays)
    case Null => None
    case Given(d) => Some(d)
  }

  /** The quotes and orders tables, updated in place; ids are positions. */
  class SalesStore {
    var quotes: seq<Quote>
    var orders: seq<Order>

    ghost predicate Valid()
      reads this
    {
      && (forall i :: 0 <= i < |quotes| ==> quotes[i].id == i)
      && (forall i :: 0 <= i < |orders| ==> orders[i].id == i)
    }

    constructor ()
      ensures Valid() && quotes == [] && orders == []
    {
      quotes, orders := [], [];
    }

    /** createQuote: a draft quote whose total is computed from its lines;
        without a line list the loop throws and nothing is inserted. */
    method CreateQuote(customerId: string, items: Option<seq<Line>>, validityDays: Arg<int>,
                       notes: Option<string>, deliveryAddress: Option<string>, user: Option<string>)
      returns (r: Result<Quote, string>)
      requires Valid()
      modifies this
      ensures Valid() && orders == old(orders)
      ensures items.None? ==> r == Err(ItemsNotIterable) && quotes == old(quotes)
      ensures items.Some? ==>
        && r.Ok? && quotes == old(quotes) + [r.value]
        && r.value == Quote(|old(quotes)|, customerId, items.value, QuoteTotal(items.value),
                            Validity(validityDays), notes, deliveryAddress, "draft", user)
    {
      if items.None? {
        return Err(ItemsNotIterable);
      }
      var total := ComputeTotal(items.value);
      var q := Quote(|quotes|, customerId, items.value, total, Validity(validityDays), notes, deliveryAddress, "draft", user);
      quotes := quotes + [q];
      r := Ok(q);
    }

    /** convertQuoteToOrder: a pending order copying the quote, then the quote
        marked converted. The quote's status is not checked. */
    method ConvertQuoteToOrder(quoteId: nat, user: Option<string>) returns (r: Result<Order, string>)
      requires Valid()
      modifies this
      ensures Valid()
      ensures quoteId >= |old(quotes)| ==> r == Err(QuoteNotFound) && quotes == old(quotes) && orders == old(orders)
      ensures quoteId < |old(quotes)| ==>
        var q := old(quotes)[quoteId];
        && r == Ok(Order(|old(orders)|, Some(quoteId), q.customerId, q.items, q.totalAmount, q.deliveryAddress, "pending", user))
        && orders == old(orders) + [r.value]
        && quotes == old(quotes)[quoteId := q.(status := "converted")]
    {
      if quoteId >= |quotes| {
        return Err(QuoteNotFound);
      }
      var q := quotes[quoteId];
      var o := Order(|orders|, Some(quoteId), q.customerId, q.items, q.totalAmount, q.deliveryAddress, "pending", user);
      orders := orders + [o];
      quotes := quotes[quoteId := q.(status := "converted")];
      r := Ok(o);
    }

    /** `UPDATE sales_orders SET status = $s WHERE id = $1`: no row, no change. */
    method SetOrderStatus(orderId: nat, status: string)
      requires Valid()
      modifies this
      ensures Valid() && quotes == old(quotes)
      ensures orderId < |old(orders)| ==> orders == old(orders)[orderId := old(orders)[orderId].(status := status)]
      ensures orderId >= |old(orders)| ==> orders == old(orders)
    {
      if orderId < |orders| {
        orders := orders[orderId := orders[orderId].(status := status)];
      }
    }
  }

  /** Converting the same quote twice creates two orders with the same content. */
  method ConvertTwice(store: SalesStore, quoteId: nat, user: Option<string>)
    requires store.Valid() && quoteId < |store.quotes|
    modifies store
    ensures |store.orders| == |old(store.orders)| + 2
    ensures store.orders[|store.orders| - 1].totalAmount == store.orders[|store.orders| - 2].totalAmount
    ensures quoteId < |store.quotes| && store.quotes[quoteId].status == "converted"
  {
    var first := store.ConvertQuoteToOrder(quoteId, user);
    var second := store.ConvertQuoteToOrder(quoteId, user);
  }
}
