/**
 * The stock alert of monitor-products.js: after each round of checks, an
 * in-stock result raises an alert when auto-ordering is on, its price is
 * not above the configured maximum, and its stock text carries one of the
 * configured keywords.
 */
module MonitorProducts {
  import opened Text
  import opened Prices
  import opened ProductScraper

  /** The order settings it reads: the switch, the maximum price and the keywords. */
  datatype OrderSettings = OrderSettings(autoOrderEnabled: bool, maxPrice: nat, keywords: seq<string>)

  /** Some keyword occurs in the lower-cased stock text. */
  predicate HasKeyword(stockStatus: string, keywords: seq<string>)
  {
    exists i :: 0 <= i < |keywords| && Contains(ToLower(stockStatus), ToLower(keywords[i]))
  }

  /**
   * `shouldTriggerOrder`: auto-ordering on, a price that does not exceed
   * the maximum (NaN never does), and a keyword in the stock text.
   */
  function ShouldTriggerOrder(settings: OrderSettings, result: ProductResult): (trigger: bool)
    ensures !settings.autoOrderEnabled ==> !trigger
    ensures StrippedPrice(result.price).NaN? ==> (trigger <==> settings.autoOrderEnabled && HasKeyword(result.stockStatus, settings.keywords))
    ensures trigger ==> !GreaterThan(StrippedPrice(result.price), settings.maxPrice)
    ensures settings.autoOrderEnabled && !GreaterThan(StrippedPrice(result.price), settings.maxPrice) ==>
              (trigger <==> HasKeyword(result.stockStatus, settings.keywords))
    ensures |settings.keywords| == 0 ==> !trigger
  {
    if !settings.autoOrderEnabled then false
    else if GreaterThan(StrippedPrice(result.price), settings.maxPrice) then false
    else HasKeyword(result.stockStatus, settings.keywords)
  }

  /** The results of a round that raise a stock alert, in order. */
  function StockAlerts(settings: OrderSettings, results: seq<ProductResult>): (alerts: seq<ProductResult>)
    ensures |alerts| <= |results|
    ensures forall i :: 0 <= i < |alerts| ==> alerts[i].isInStock && ShouldTriggerOrder(settings, alerts[i])
  {
    if |results| == 0 then []
    else
      var head := results[0];
      (if head.isInStock && ShouldTriggerOrder(settings, head) then [head] else []) + StockAlerts(settings, results[1..])
  }

  /** A result raises an alert iff it is in stock and the order rule accepts it. */
  lemma {:induction false} StockAlertMembers(settings: OrderSettings, results: seq<ProductResult>)
    ensures forall r :: r in StockAlerts(settings, results) <==> r in results && r.isInStock && ShouldTriggerOrder(settings, r)
    decreases |results|
  {
    if |results| > 0 {
      StockAlertMembers(settings, results[1..]);
      assert results == [results[0]] + results[1..];
    }
  }

  /** Alerts of two rounds in a row are the alerts of each, in order. */
  lemma {:induction false} StockAlertsConcat(settings: OrderSettings, a: seq<ProductResult>, b: seq<ProductResult>)
    ensures StockAlerts(settings, a + b) == StockAlerts(settings, a) + StockAlerts(settings, b)
    decreases |a|
  {
    if |a| > 0 {
      assert (a + b)[0] == a[0] && (a + b)[1..] == a[1..] + b;
      StockAlertsConcat(settings, a[1..], b);
    } else {
      assert a + b == b;
    }
  }
}
