/**
 * The order gate of src/orders/orderAutomator.js: a chain of checks decides
 * whether an order may be placed (enabled, in stock, not rate limited for
 * the product, under the daily limit, price, keywords, stock count), and a
 * completed checkout records the order against the daily count and the
 * product's rate limit.
 */
module OrderAutomator {
  import opened Text
  import opened Wrappers
  import opened Calendar
  import opened Prices

  /** Thirty minutes between two orders of the same product. */
  const MinInterval: nat := 30 * 60 * 1000

  /** The settings the automator reads; an absent or zero number falls back to its default. */
  datatype AutomatorConfig = AutomatorConfig(
    autoOrderEnabled: bool,
    maxDailyOrders: Option<nat>,
    maxOrderAmount: Option<nat>,
    keywords: Option<seq<string>>,
    minStock: Option<nat>,
    autoCheckout: bool,
    confirmBeforeOrder: bool)

  /** `config.maxDailyOrders || 10`. */
  function DailyLimit(c: AutomatorConfig): (limit: nat)
    ensures limit > 0
    ensures c.maxDailyOrders.Some? && c.maxDailyOrders.value > 0 ==> limit == c.maxDailyOrders.value
  {
    if c.maxDailyOrders.Some? && c.maxDailyOrders.value > 0 then c.maxDailyOrders.value else 10
  }

  /** `config.maxOrderAmount || 500`. */
  function PriceLimit(c: AutomatorConfig): (limit: nat)
    ensures limit > 0
  {
    if c.maxOrderAmount.Some? && c.maxOrderAmount.value > 0 then c.maxOrderAmount.value else 500
  }

  /** What a scrape reported about a product. */
  datatype ProductInfo = ProductInfo(isInStock: bool, url: string, title: string, price: Option<string>, stockCount: Option<int>)

  /** The answer of `shouldPlaceOrder`. */
  datatype Decision = Decision(allowed: bool, reason: string)

  /** `parsePrice`: the first `/[\d,]+\.?\d*\/` numeral with every comma removed; no text or no match is null (read here as NaN). */
  function ParsePrice(priceText: Option<string>): (p: Price)
    ensures priceText.None? || priceText.value == "" ==> p.NaN?
  {
    if priceText.None? || priceText.value == "" then NaN
    else
      match NumberMatch(priceText.value)
      case None => NaN
      case Some(m) =>
        KeepNumeral(m);
        ParseFloat(Keep(m, NotComma))
  }

  /** A whole number with no digit or comma before it and no digit, comma or point after it reads as that number. */
  lemma ParsePriceOfNumeral(pre: string, n: nat, rest: string)
    requires forall i :: 0 <= i < |pre| ==> !DigitOrComma(pre[i])
    requires |rest| == 0 || (!DigitOrComma(rest[0]) && rest[0] != '.')
    ensures ParsePrice(Some(pre + NatToString(n) + rest)) == Num(n, 0)
  {
    var k := NatToString(n);
    NumberMatchAt(pre, k, rest);
    KeepAll(k, NotComma);
    ParseFloatOfDigits(k);
    NatToStringRoundTrip(n);
  }

  /**
   * Thousands separators: every comma of the match is dropped, so
   * "1,234,567" reads as 1234567 (the groups written one after another).
   */
  lemma ParsePriceDropsEveryComma(pre: string, w: string, g1: string, g2: string, rest: string)
    requires forall i :: 0 <= i < |pre| ==> !DigitOrComma(pre[i])
    requires AllDigits(w) && |w| > 0 && AllDigits(g1) && AllDigits(g2)
    requires |rest| == 0 || (!DigitOrComma(rest[0]) && rest[0] != '.')
    ensures AllDigits(w + g1 + g2)
    ensures ParsePrice(Some(pre + w + "," + g1 + "," + g2 + rest)) == Num(DigitsValue(w + g1 + g2), 0)
  {
    ThousandsMatch(pre, w, g1, g2, rest);
    KeepGroups(w, g1, g2);
    DigitsConcat(w, g1);
    DigitsConcat(w + g1, g2);
    ParseFloatOfDigits(w + g1 + g2);
  }


  /** `title.toLowerCase().includes(keyword.toLowerCase())` for some keyword. */
  predicate HasKeyword(title: string, keywords: seq<string>)
  {
    exists i :: 0 <= i < |keywords| && Contains(ToLower(title), ToLower(keywords[i]))
  }

  /** The message of a refused price; it shows the configured maximum as it is, even when unset. */
  function PriceMessage(price: Price, c: AutomatorConfig): string
    requires price.Num?
  {
    "Price " + NumberText(price) + " exceeds maximum "
    + (if c.maxOrderAmount.Some? then NatToString(c.maxOrderAmount.value) else "undefined")
  }

  /** The checks on the product itself (price, keywords, stock count), the first failing one's reason. */
  function ContentRefusal(info: ProductInfo, c: AutomatorConfig): (reason: Option<string>)
    ensures reason.None? <==>
              !GreaterThan(ParsePrice(info.price), PriceLimit(c))
              && (c.keywords.None? || |c.keywords.value| == 0 || HasKeyword(info.title, c.keywords.value))
              && !(c.minStock.Some? && c.minStock.value > 0 && info.stockCount.Some? && info.stockCount.value < c.minStock.value)
    ensures GreaterThan(ParsePrice(info.price), PriceLimit(c)) ==> reason == Some(PriceMessage(ParsePrice(info.price), c))
  {
    var price := ParsePrice(info.price);
    GreaterThanNonNegativeIsTruthy(price, PriceLimit(c));
    if Truthy(price) && GreaterThan(price, PriceLimit(c)) then Some(PriceMessage(price, c))
    else if c.keywords.Some? && |c.keywords.value| > 0 && !HasKeyword(info.title, c.keywords.value) then
      Some("Product does not match keyword criteria")
    else if c.minStock.Some? && c.minStock.value > 0 && info.stockCount.Some? && info.stockCount.value < c.minStock.value then
      Some("Stock count below minimum threshold")
    else None
  }

  /** The outcome of `placeOrder`. */
  datatype PlaceResult =
    | Refused(reason: string)
    | Failed(reason: string)
    | Placed(message: string, orderId: string)
    | CartOnly(message: string)

  /**
   * What the browser steps of an order attempt come to: an error thrown
   * while adding to the cart, whether a success message appeared, an error
   * thrown during checkout before the confirmation check, and the order
   * number found on the confirmation page.
   */
  datatype BrowserRun = BrowserRun(
    cartError: Option<string>,
    cartSuccess: bool,
    checkoutError: Option<string>,
    orderNumber: Option<string>)

  /** The statistics `getStats` reports. */
  datatype AutomatorStats = AutomatorStats(dailyOrderCount: nat, lastOrderTime: Option<nat>, rateLimitedProducts: nat)

  class Automator {
    const config: AutomatorConfig
    var dailyOrderCount: nat
    /** When the last order was recorded (its ISO text is read back as this instant). */
    var lastOrderTime: Option<nat>
    /** The time of the last order per product url; entries are never removed. */
    var rateLimiter: map<string, nat>

    constructor (c: AutomatorConfig)
      ensures config == c && dailyOrderCount == 0 && lastOrderTime == None && rateLimiter == map[]
    {
      config := c;
      dailyOrderCount := 0;
      lastOrderTime := None;
      rateLimiter := map[];
    }

    /** `isRateLimited`: a recorded, non-zero time less than thirty minutes ago. */
    predicate IsRateLimited(url: string, now: nat)
      reads this
    {
      url in rateLimiter && rateLimiter[url] != 0 && now - rateLimiter[url] < MinInterval
    }

    /** `checkDailyLimits`: a count from another day is zeroed first, then compared with the limit. */
    method CheckDailyLimits(now: nat) returns (withinLimit: bool)
      modifies this`dailyOrderCount
      ensures dailyOrderCount == if lastOrderTime.Some? && DayOf(lastOrderTime.value) == DayOf(now) then old(dailyOrderCount) else 0
      ensures withinLimit <==> dailyOrderCount < DailyLimit(config)
    {
      if !(lastOrderTime.Some? && DayOf(lastOrderTime.value) == DayOf(now)) {
        dailyOrderCount := 0;
      }
      withinLimit := dailyOrderCount < DailyLimit(config);
    }

    /** The count the daily check compares: zero when the last order was on another day or never. */
    function CountToday(now: nat): nat
      reads this
    {
      if lastOrderTime.Some? && DayOf(lastOrderTime.value) == DayOf(now) then dailyOrderCount else 0
    }

    /** Every check of `shouldPlaceOrder` passes. */
    predicate AllChecksPass(info: ProductInfo, now: nat)
      reads this
    {
      config.autoOrderEnabled && info.isInStock && !IsRateLimited(info.url, now)
      && CountToday(now) < DailyLimit(config)
      && !GreaterThan(ParsePrice(info.price), PriceLimit(config))
      && (config.keywords.None? || |config.keywords.value| == 0 || HasKeyword(info.title, config.keywords.value))
      && !(config.minStock.Some? && config.minStock.value > 0 && info.stockCount.Some?
           && info.stockCount.value < config.minStock.value)
    }

    /**
     * `shouldPlaceOrder`: the checks run in a fixed order and the first that
     * fails gives the reason. The daily-limit check (and its reset of a
     * stale count) runs only when the three checks before it pass.
     */
    method ShouldPlaceOrder(info: ProductInfo, now: nat) returns (d: Decision)
      modifies this`dailyOrderCount
      ensures d.allowed <==> old(AllChecksPass(info, now))
      ensures dailyOrderCount ==
                if config.autoOrderEnabled && info.isInStock && !IsRateLimited(info.url, now)
                then old(CountToday(now)) else old(dailyOrderCount)
      ensures !config.autoOrderEnabled ==> d == Decision(false, "Auto ordering disabled")
      ensures config.autoOrderEnabled && !info.isInStock ==> d == Decision(false, "Product not in stock")
      ensures config.autoOrderEnabled && info.isInStock && IsRateLimited(info.url, now) ==>
                d == Decision(false, "Rate limited for this product")
      ensures d.allowed ==> d.reason == "All conditions met"
    {
      if !config.autoOrderEnabled {
        return Decision(false, "Auto ordering disabled");
      }
      if !info.isInStock {
        return Decision(false, "Product not in stock");
      }
      if IsRateLimited(info.url, now) {
        return Decision(false, "Rate limited for this product");
      }
      var withinLimit := CheckDailyLimits(now);
      if !withinLimit {
        return Decision(false, "Daily order limit reached");
      }
      var refusal := ContentRefusal(info, config);
      if refusal.Some? {
        return Decision(false, refusal.value);
      }
      d := Decision(true, "All conditions met");
    }

    /** `recordSuccessfulOrder`: one more order today, stamped now, and the product's url stamped now. */
    method RecordSuccessfulOrder(info: ProductInfo, now: nat)
      modifies this`dailyOrderCount, this`lastOrderTime, this`rateLimiter
      ensures dailyOrderCount == old(dailyOrderCount) + 1 && lastOrderTime == Some(now)
      ensures rateLimiter == old(rateLimiter)[info.url := now]
    {
      dailyOrderCount := dailyOrderCount + 1;
      lastOrderTime := Some(now);
      rateLimiter := rateLimiter[info.url := now];
    }

    /**
     * `placeOrder`: a refused order returns its reason before any browser
     * step; a thrown error or a missing cart message fails; with auto
     * checkout off the cart alone counts as success and nothing is recorded;
     * a checkout that needs confirmation or fails records nothing; only a
     * completed checkout records the order.
     */
    method PlaceOrder(info: ProductInfo, run: BrowserRun, now: nat) returns (r: PlaceResult)
      modifies this`dailyOrderCount, this`lastOrderTime, this`rateLimiter
      ensures r.Refused? <==> !old(AllChecksPass(info, now))
      ensures r.Placed? <==>
                old(AllChecksPass(info, now)) && run.cartError.None? && run.cartSuccess && config.autoCheckout
                && run.checkoutError.None? && !config.confirmBeforeOrder
      ensures r.Placed? ==> rateLimiter == old(rateLimiter)[info.url := now] && lastOrderTime == Some(now)
                            && r.orderId == OrText(run.orderNumber, "Unknown")
      ensures !r.Placed? ==> rateLimiter == old(rateLimiter) && lastOrderTime == old(lastOrderTime)
      ensures r.CartOnly? <==> old(AllChecksPass(info, now)) && run.cartError.None? && run.cartSuccess && !config.autoCheckout
      ensures r.Placed? ==> dailyOrderCount == old(CountToday(now)) + 1
      ensures !r.Placed? ==>
                dailyOrderCount == if config.autoOrderEnabled && info.isInStock && !old(IsRateLimited(info.url, now))
                                   then old(CountToday(now)) else old(dailyOrderCount)
    {
      var d := ShouldPlaceOrder(info, now);
      if !d.allowed {
        return Refused(d.reason);
      }
      if run.cartError.Some? {
        return Failed("Order failed: " + run.cartError.value);
      }
      if !run.cartSuccess {
        return Failed("Order failed: Failed to add product to cart");
      }
      if !config.autoCheckout {
        return CartOnly("Product added to cart: " + info.title);
      }
      if run.checkoutError.Some? {
        return Failed("Added to cart but checkout failed: " + run.checkoutError.value);
      }
      if config.confirmBeforeOrder {
        return Failed("Added to cart but checkout failed: Manual confirmation required");
      }
      RecordSuccessfulOrder(info, now);
      r := Placed("Order placed successfully for " + info.title, OrText(run.orderNumber, "Unknown"));
    }

    /** `getStats`: the count, the last order time, and how many product urls were ever recorded. */
    function GetStats(): (s: AutomatorStats)
      reads this
      ensures s.dailyOrderCount == dailyOrderCount && s.lastOrderTime == lastOrderTime
      ensures s.rateLimitedProducts == |rateLimiter.Keys|
    {
      AutomatorStats(dailyOrderCount, lastOrderTime, |rateLimiter.Keys|)
    }
  }

  /** An order recorded at a non-zero time keeps its product rate limited for the next thirty minutes, and no longer. */
  lemma RecordedUrlIsRateLimited(a: Automator, url: string, at: nat, now: nat)
    requires url in a.rateLimiter && a.rateLimiter[url] == at && at > 0 && at <= now
    ensures a.IsRateLimited(url, now) <==> now < at + MinInterval
  {
  }

  /** Recording an order stamps one url: the number of rate-limited products grows by at most one, and only for a new url. */
  lemma RecordGrowsLimiterByOne(m: map<string, nat>, url: string, now: nat)
    ensures |m[url := now].Keys| == if url in m then |m.Keys| else |m.Keys| + 1
  {
    if url in m {
      assert m[url := now].Keys == m.Keys;
    } else {
      assert m[url := now].Keys == m.Keys + {url};
    }
  }
}
