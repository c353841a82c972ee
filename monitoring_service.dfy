/**
 * The ordering decision of src/services/monitoringService.js: a product is
 * ordered when auto-ordering is on globally and for the product, the check
 * found it in stock, today's order count is under the limits, the price is
 * not above the product's maximum and the stock text carries a keyword.
 * Each order raises one counter that a new day zeroes.
 */
module MonitoringService {
  import opened Text
  import opened Wrappers
  import opened Prices
  import opened ProductScraper

  /** A product's `orderConditions`; a zero limit or quantity reads as unset. */
  datatype OrderConditions = OrderConditions(
    autoOrder: bool, maxDailyOrders: Option<nat>, keywords: Option<seq<string>>, quantity: Option<nat>)

  /** A tracked product as this service reads it. */
  datatype TrackedProduct = TrackedProduct(
    id: string, name: string, url: string, stockSelector: string, enabled: bool,
    maxPrice: Option<nat>, orderConditions: Option<OrderConditions>)

  /** The order settings it reads: the switch, the global daily limit and the global keywords. */
  datatype OrderSettings = OrderSettings(autoOrderEnabled: bool, maxDailyOrders: nat, keywords: seq<string>)

  /** The record `processOrder` logs. */
  datatype OrderData = OrderData(
    productId: string, productName: string, productUrl: string, quantity: nat, price: string, orderNumber: string)

  /** One entry of a check round: the scraper's result, or the error it threw. */
  datatype CheckEntry =
    | Checked(productId: string, productName: string, result: ProductResult)
    | CheckFailed(productId: string, productName: string, error: string, timestamp: nat)

  /** The price as this module reads it: the first `/[\d,]+\.?\d*\/` numeral with its first comma removed. */
  function MatchedPrice(priceText: string): (p: Option<Price>)
    ensures p.None? <==> NumberMatch(priceText).None?
  {
    match NumberMatch(priceText)
    case None => None
    case Some(m) =>
      RemoveFirstNumeral(m);
      Some(ParseFloat(RemoveFirst(m, ',')))
  }

  /** A whole number with no digit or comma before it and no digit, comma or point after it reads as that number. */
  lemma MatchedPriceOfNumeral(pre: string, n: nat, rest: string)
    requires forall i :: 0 <= i < |pre| ==> !DigitOrComma(pre[i])
    requires |rest| == 0 || (!DigitOrComma(rest[0]) && rest[0] != '.')
    ensures MatchedPrice(pre + NatToString(n) + rest) == Some(Num(n, 0))
  {
    var k := NatToString(n);
    NumberMatchAt(pre, k, rest);
    ParseFloatOfDigits(k);
    NatToStringRoundTrip(n);
  }

  /**
   * Thousands separators: only the first comma of the match is removed and
   * the number stops at the second, so "1,234,567" reads as 1234.
   */
  lemma MatchedPriceStopsAtSecondComma(pre: string, w: string, g1: string, g2: string, rest: string)
    requires forall i :: 0 <= i < |pre| ==> !DigitOrComma(pre[i])
    requires AllDigits(w) && |w| > 0 && AllDigits(g1) && AllDigits(g2)
    requires |rest| == 0 || (!DigitOrComma(rest[0]) && rest[0] != '.')
    ensures AllDigits(w + g1)
    ensures MatchedPrice(pre + w + "," + g1 + "," + g2 + rest) == Some(Num(DigitsValue(w + g1), 0))
  {
    ThousandsMatch(pre, w, g1, g2, rest);
    MatchedPriceOfMatch(pre + w + "," + g1 + "," + g2 + rest, w + "," + g1 + "," + g2);
    GroupsReadAsFirstTwo(w, g1, g2);
  }

  /** The price read from a text is the one read from its match. */
  lemma MatchedPriceOfMatch(t: string, k: string)
    requires NumberMatch(t) == Some(k)
    ensures NumeralText(RemoveFirst(k, ','))
    ensures MatchedPrice(t) == Some(ParseFloat(RemoveFirst(k, ',')))
  {
    RemoveFirstNumeral(k);
  }

  /** The price check: it applies only with a maximum, a price text and a numeral in it. */
  predicate PriceTooHigh(product: TrackedProduct, result: ProductResult)
  {
    product.maxPrice.Some? && product.maxPrice.value > 0 && result.price != ""
    && MatchedPrice(result.price).Some? && GreaterThan(MatchedPrice(result.price).value, product.maxPrice.value)
  }

  /** `product.orderConditions.keywords || orderConfig.conditions.keywords`: an empty product list is kept, as arrays are truthy. */
  function KeywordsFor(conditions: OrderConditions, settings: OrderSettings): seq<string>
  {
    if conditions.keywords.Some? then conditions.keywords.value else settings.keywords
  }

  /** Some keyword occurs in the lower-cased stock text. */
  predicate StockTextMatches(stockStatus: string, keywords: seq<string>)
  {
    exists i :: 0 <= i < |keywords| && Contains(ToLower(stockStatus), ToLower(keywords[i]))
  }

  /** `p.enabled` over the tracked products, order kept. */
  function Enabled(products: seq<TrackedProduct>): (r: seq<TrackedProduct>)
    ensures |r| <= |products|
    ensures forall i :: 0 <= i < |r| ==> r[i].enabled
  {
    if |products| == 0 then []
    else (if products[0].enabled then [products[0]] else []) + Enabled(products[1..])
  }

  /** Exactly the enabled products are checked. */
  lemma {:induction false} EnabledMembers(products: seq<TrackedProduct>)
    ensures forall p :: p in Enabled(products) <==> p in products && p.enabled
    decreases |products|
  {
    if |products| > 0 {
      EnabledMembers(products[1..]);
      assert products == [products[0]] + products[1..];
    }
  }

  /** The scraper's answer for the `i`-th product checked; a missing one reads as a thrown error. */
  function CheckAt(checks: seq<Result<ProductResult>>, i: nat): Result<ProductResult>
  {
    if i < |checks| then checks[i] else Err("Product check failed")
  }

  /** Auto-ordering is on globally and for the product, and the check found it in stock: the checks that come before the day reset. */
  predicate Reaches(settings: OrderSettings, product: TrackedProduct, result: ProductResult)
  {
    settings.autoOrderEnabled && product.orderConditions.Some? && product.orderConditions.value.autoOrder
    && result.isInStock
  }

  /** The checks after the day reset pass with `count` orders today: the global and product limits, the price and the keywords. */
  predicate Admits(settings: OrderSettings, count: nat, product: TrackedProduct, result: ProductResult)
    requires product.orderConditions.Some?
  {
    count < settings.maxDailyOrders
    && !(product.orderConditions.value.maxDailyOrders.Some? && product.orderConditions.value.maxDailyOrders.value > 0
         && count >= product.orderConditions.value.maxDailyOrders.value)
    && !PriceTooHigh(product, result)
    && var keywords := KeywordsFor(product.orderConditions.value, settings);
       (|keywords| == 0 || StockTextMatches(result.stockStatus, keywords))
  }

  /** The record `processOrder` logs for an order of `product`. */
  function OrderRecord(product: TrackedProduct, result: ProductResult, now: nat): (order: OrderData)
    requires product.orderConditions.Some?
    ensures order.productId == product.id && order.productName == product.name && order.productUrl == product.url
    ensures order.price == result.price && order.orderNumber == "ORD-" + NatToString(now)
    ensures var q := product.orderConditions.value.quantity;
            order.quantity == if q.Some? && q.value > 0 then q.value else 1
  {
    var q := product.orderConditions.value.quantity;
    OrderData(product.id, product.name, product.url, if q.Some? && q.value > 0 then q.value else 1, result.price, "ORD-" + NatToString(now))
  }

  /** The service's counter, its day, and the orders of a round so far. */
  datatype RoundState = RoundState(count: nat, date: Option<nat>, orders: seq<OrderData>)

  /**
   * One product of a round: a thrown check or a product that does not reach
   * the reset leaves everything as it is; otherwise a counter from another
   * day is zeroed and stamped today, and an admitted product is ordered and
   * counted.
   */
  function RoundStep(settings: OrderSettings, st: RoundState, product: TrackedProduct, check: Result<ProductResult>, today: nat, now: nat): RoundState
  {
    if check.Err? || !Reaches(settings, product, check.value) then st
    else
      var count := if st.date == Some(today) then st.count else 0;
      if Admits(settings, count, product, check.value) then
        RoundState(count + 1, Some(today), st.orders + [OrderRecord(product, check.value, now)])
      else RoundState(count, Some(today), st.orders)
  }

  /** The first `n` products of a round, in order, from state `st`. */
  function Round(settings: OrderSettings, st: RoundState, products: seq<TrackedProduct>, checks: seq<Result<ProductResult>>, n: nat, today: nat, now: nat): RoundState
    requires n <= |products|
  {
    if n == 0 then st
    else RoundStep(settings, Round(settings, st, products, checks, n - 1, today, now), products[n - 1], CheckAt(checks, n - 1), today, now)
  }

  /**
   * A round adds at most one order per product and counts every order it
   * adds: from a counter of today it grows by the orders added, and once a
   * reset from another day happened it equals them.
   */
  lemma {:induction false} RoundCountsOrders(settings: OrderSettings, st: RoundState, products: seq<TrackedProduct>, checks: seq<Result<ProductResult>>, n: nat, today: nat, now: nat)
    requires n <= |products|
    ensures var r := Round(settings, st, products, checks, n, today, now);
            |st.orders| <= |r.orders| <= |st.orders| + n
            && r.orders[..|st.orders|] == st.orders
            && (r.date == st.date || r.date == Some(today))
            && (st.date == Some(today) ==> r.count == st.count + |r.orders| - |st.orders|)
            && (st.date != Some(today) && r.date == Some(today) ==> r.count == |r.orders| - |st.orders|)
            && (r.date == st.date && st.date != Some(today) ==> r.count == st.count && r.orders == st.orders)
  {
    if n > 0 {
      RoundCountsOrders(settings, st, products, checks, n - 1, today, now);
      var prev := Round(settings, st, products, checks, n - 1, today, now);
      var r := Round(settings, st, products, checks, n, today, now);
      assert r == RoundStep(settings, prev, products[n - 1], CheckAt(checks, n - 1), today, now);
      if r.orders != prev.orders {
        assert r.orders == prev.orders + [r.orders[|r.orders| - 1]];
        assert r.orders[..|st.orders|] == prev.orders[..|st.orders|];
      }
    }
  }

  class Service {
    const settings: OrderSettings
    var dailyOrderCount: nat
    /** The day (`toDateString`) the counter belongs to. */
    var lastOrderDate: Option<nat>

    constructor (s: OrderSettings)
      ensures settings == s && dailyOrderCount == 0 && lastOrderDate == None
    {
      settings := s;
      dailyOrderCount := 0;
      lastOrderDate := None;
    }

    /** The count `shouldOrder` compares after its reset. */
    function CountOn(today: nat): nat
      reads this
    {
      if lastOrderDate == Some(today) then dailyOrderCount else 0
    }

    /** Every check of `shouldOrder` passes, with the count as it stands after the reset. */
    predicate OrderAllowed(product: TrackedProduct, result: ProductResult, today: nat)
      reads this
    {
      Reaches(settings, product, result) && Admits(settings, CountOn(today), product, result)
    }

    /**
     * `shouldOrder`: false unless auto-ordering is on globally and for the
     * product and the result is in stock; only then is a counter from
     * another day zeroed and stamped today, before the limit, price and
     * keyword checks.
     */
    method ShouldOrder(product: TrackedProduct, result: ProductResult, today: nat) returns (ok: bool)
      modifies this
      ensures ok <==> old(OrderAllowed(product, result, today))
      ensures var reaches := Reaches(settings, product, result);
              (reaches ==> dailyOrderCount == old(CountOn(today)) && lastOrderDate == Some(today))
              && (!reaches ==> dailyOrderCount == old(dailyOrderCount) && lastOrderDate == old(lastOrderDate))
      ensures ok ==> dailyOrderCount < settings.maxDailyOrders
    {
      if !settings.autoOrderEnabled || product.orderConditions.None? || !product.orderConditions.value.autoOrder {
        return false;
      }
      if !result.isInStock {
        return false;
      }
      if lastOrderDate != Some(today) {
        dailyOrderCount := 0;
        lastOrderDate := Some(today);
      }
      if dailyOrderCount >= settings.maxDailyOrders {
        return false;
      }
      var conditions := product.orderConditions.value;
      if conditions.maxDailyOrders.Some? && conditions.maxDailyOrders.value > 0
         && dailyOrderCount >= conditions.maxDailyOrders.value {
        return false;
      }
      if PriceTooHigh(product, result) {
        return false;
      }
      var keywords := KeywordsFor(conditions, settings);
      if |keywords| > 0 && !StockTextMatches(result.stockStatus, keywords) {
        return false;
      }
      ok := true;
    }

    /** `processOrder`: the order record, and exactly one more order counted. */
    method ProcessOrder(product: TrackedProduct, result: ProductResult, now: nat) returns (order: OrderData)
      requires product.orderConditions.Some?
      modifies this`dailyOrderCount
      ensures dailyOrderCount == old(dailyOrderCount) + 1
      ensures order.productId == product.id && order.productUrl == product.url && order.price == result.price
      ensures var q := product.orderConditions.value.quantity;
              order.quantity == if q.Some? && q.value > 0 then q.value else 1
      ensures order.orderNumber == "ORD-" + NatToString(now)
      ensures order == OrderRecord(product, result, now)
    {
      var q := product.orderConditions.value.quantity;
      var quantity: nat := if q.Some? && q.value > 0 then q.value else 1;
      order := OrderData(product.id, product.name, product.url, quantity, result.price, "ORD-" + NatToString(now));
      dailyOrderCount := dailyOrderCount + 1;
    }

    /** The midnight job: the counter is zeroed and stamped with the new day. */
    method ResetDailyCount(today: nat)
      modifies this
      ensures dailyOrderCount == 0 && lastOrderDate == Some(today)
    {
      dailyOrderCount := 0;
      lastOrderDate := Some(today);
    }

    /**
     * `checkProducts`: every enabled product is checked in order, one entry
     * each (a thrown check becomes an error entry), and an allowed order is
     * processed at once. The count never passes the global limit.
     */
    method CheckProducts(products: seq<TrackedProduct>, checks: seq<Result<ProductResult>>, today: nat, now: nat)
      returns (entries: seq<CheckEntry>, orders: seq<OrderData>)
      modifies this
      ensures var enabled := Enabled(products);
              |entries| == |enabled|
              && forall i :: 0 <= i < |entries| ==>
                   entries[i].productId == enabled[i].id
                   && (CheckAt(checks, i).Ok? <==> entries[i].Checked?)
                   && (entries[i].Checked? ==> entries[i].result == CheckAt(checks, i).value)
      ensures |orders| <= |Enabled(products)|
      ensures old(dailyOrderCount) <= settings.maxDailyOrders ==> dailyOrderCount <= settings.maxDailyOrders
      ensures var enabled := Enabled(products);
              var r := Round(settings, RoundState(old(dailyOrderCount), old(lastOrderDate), []), enabled, checks, |enabled|, today, now);
              orders == r.orders && dailyOrderCount == r.count && lastOrderDate == r.date
    {
      var enabled := Enabled(products);
      entries, orders := [], [];
      var i := 0;
      while i < |enabled|
        invariant 0 <= i <= |enabled|
        invariant |entries| == i && |orders| <= i
        invariant forall k :: 0 <= k < i ==>
                    entries[k].productId == enabled[k].id
                    && (CheckAt(checks, k).Ok? <==> entries[k].Checked?)
                    && (entries[k].Checked? ==> entries[k].result == CheckAt(checks, k).value)
        invariant old(dailyOrderCount) <= settings.maxDailyOrders ==> dailyOrderCount <= settings.maxDailyOrders
        invariant Round(settings, RoundState(old(dailyOrderCount), old(lastOrderDate), []), enabled, checks, i, today, now)
                    == RoundState(dailyOrderCount, lastOrderDate, orders)
      {
        var product := enabled[i];
        var check := CheckAt(checks, i);
        if check.Err? {
          entries := entries + [CheckFailed(product.id, product.name, check.message, now)];
        } else {
          entries := entries + [Checked(product.id, product.name, check.value)];
          var ok := ShouldOrder(product, check.value, today);
          if ok {
            var order := ProcessOrder(product, check.value, now);
            orders := orders + [order];
          }
        }
        i := i + 1;
      }
    }
  }
}
