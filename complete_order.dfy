/**
 * The order engine of complete-order-automation.js: a budget-driven order
 * strategy (one order of 700 units, a split of 700 into several orders, or
 * the largest affordable single order), the split-order loop that stops at
 * the first failed order, the Swedish availability test, the
 * out-of-stock-to-available trigger and the counter-numbered references.
 */
module CompleteOrder {
  import opened Text
  import opened Wrappers
  import opened Calendar
  import opened Page
  import opened Prices

  const DefaultBudget: int := 250000

  /** `parseInt(MAX_ORDER_AMOUNT) || 250000`: `None` stands for an unset or unparsable variable; 0 falls back too. */
  function Budget(env: Option<int>): int
  {
    if env.Some? && env.value != 0 then env.value else DefaultBudget
  }

  // ---------------------------------------------------------------------
  // Order strategy
  // ---------------------------------------------------------------------

  datatype Kind = Single | Split

  /** The strategy's kind and the quantities of its orders, in the order they are placed. */
  datatype Strategy = Strategy(kind: Kind, orders: seq<nat>)

  /** The splits tried, in order, when 700 units at once are over budget. */
  const PossibleSplits: seq<seq<nat>> := [
    [350, 350],
    [350, 200, 150],
    [350, 100, 100, 100, 50],
    [300, 200, 200],
    [250, 250, 200],
    [350, 140, 110, 100]
  ]

  function Sum(s: seq<nat>): nat
    decreases |s|
  {
    if |s| == 0 then 0 else s[0] + Sum(s[1..])
  }

  /**
   * The total cost of a split at `price` per unit (`split.reduce((sum, qty) => sum + price * qty, 0)`),
   * with the price and the cost counted in units of the price's last decimal place.
   */
  function SplitCost(split: seq<nat>, price: nat): nat
    decreases |split|
  {
    if |split| == 0 then 0 else price * split[0] + SplitCost(split[1..], price)
  }

  /** The cost of the split's largest order (`Math.max(...split.map(qty => price * qty))`; 0 stands for the empty split). */
  function MaxOrderCost(split: seq<nat>, price: nat): (m: nat)
    ensures forall i :: 0 <= i < |split| ==> price * split[i] <= m
    decreases |split|
  {
    if |split| == 0 then 0
    else
      var rest := MaxOrderCost(split[1..], price);
      assert forall i :: 1 <= i < |split| ==> split[i] == split[1..][i - 1];
      if price * split[0] > rest then price * split[0] else rest
  }

  predicate SplitFits(split: seq<nat>, price: nat, budget: int)
  {
    SplitCost(split, price) <= budget && MaxOrderCost(split, price) <= budget
  }

  /** The first split that fits the budget. */
  function FirstFittingSplit(splits: seq<seq<nat>>, price: nat, budget: int): (r: Option<seq<nat>>)
    ensures r.Some? ==> r.value in splits && SplitFits(r.value, price, budget)
    ensures r.None? <==> forall i :: 0 <= i < |splits| ==> !SplitFits(splits[i], price, budget)
    decreases |splits|
  {
    if |splits| == 0 then None
    else if SplitFits(splits[0], price, budget) then Some(splits[0])
    else
      var r := FirstFittingSplit(splits[1..], price, budget);
      assert forall i :: 1 <= i < |splits| ==> splits[i] == splits[1..][i - 1];
      r
  }

  /** A split's cost is its unit count times the price. */
  lemma {:induction false} SplitCostIsSumTimesPrice(split: seq<nat>, price: nat)
    ensures SplitCost(split, price) == price * Sum(split)
    decreases |split|
  {
    if |split| > 0 {
      SplitCostIsSumTimesPrice(split[1..], price);
      assert price * split[0] + price * Sum(split[1..]) == price * (split[0] + Sum(split[1..]));
    }
  }

  /** Every listed split adds up to 700 units. */
  lemma SplitsAddUpTo700()
    ensures forall i :: 0 <= i < |PossibleSplits| ==> Sum(PossibleSplits[i]) == 700
  {
    assert Sum([350, 350]) == 700;
    assert Sum([350, 200, 150]) == 700;
    assert Sum([350, 100, 100, 100, 50]) == 700;
    assert Sum([300, 200, 200]) == 700;
    assert Sum([250, 250, 200]) == 700;
    assert Sum([350, 140, 110, 100]) == 700;
  }

  /** When 700 units at once are over budget, so is every split: each costs exactly 700 units' worth. */
  lemma NoSplitFitsOver700(price: nat, budget: int)
    requires price * 700 > budget
    ensures FirstFittingSplit(PossibleSplits, price, budget).None?
  {
    SplitsAddUpTo700();
    forall i | 0 <= i < |PossibleSplits|
      ensures !SplitFits(PossibleSplits[i], price, budget)
    {
      SplitCostIsSumTimesPrice(PossibleSplits[i], price);
    }
  }

  /** When 700 units are over budget, the most units the budget buys (rounded down) are fewer than 700, and they fit. */
  lemma FallbackBelow700(price: Price, budget: int)
    requires Truthy(price) && !TimesAtMost(price, 700, budget)
    ensures FloorDiv(budget, price) < 700
    ensures FloorDiv(budget, price) >= 0 ==> TimesAtMost(price, FloorDiv(budget, price), budget)
  {
    var d, b := price.digits, budget * Pow10(price.scale);
    assert b == d * (b / d) + b % d;
  }

  /**
   * The strategy for a parsed unit price and a budget. Costs are compared in
   * units of the price's last decimal place: `price * qty <= budget` exactly
   * when `digits * qty <= budget * 10^scale`.
   */
  function DetermineOrderStrategy(price: Price, budget: int): (s: Strategy)
    ensures s.kind == Single && |s.orders| == 1
    ensures price.NaN? ==> s.orders == [50]
    ensures price.Num? && !Truthy(price) ==> s.orders == [350]
    ensures Truthy(price) && TimesAtMost(price, 700, budget) ==> s.orders == [700]
    ensures Truthy(price) && !TimesAtMost(price, 700, budget) ==>
              s.orders == (if FloorDiv(budget, price) >= 100 then [FloorDiv(budget, price) as nat] else [50])
    ensures Truthy(price) ==> s.orders[0] <= 700 && (TimesAtMost(price, s.orders[0], budget) || s.orders[0] == 50)
  {
    match price
    case NaN => Strategy(Single, [50])
    case Num(d, scale) =>
      if d == 0 then Strategy(Single, [350])
      else if TimesAtMost(price, 700, budget) then Strategy(Single, [700])
      else
        var scaled := budget * Pow10(scale);
        NoSplitFitsOver700(d, scaled);
        match FirstFittingSplit(PossibleSplits, d, scaled)
        case Some(split) => Strategy(Split, split)
        case None =>
          var maxUnits := FloorDiv(budget, price);
          FallbackBelow700(price, budget);
          if maxUnits >= 100 then
            Strategy(Single, [if maxUnits < 700 then maxUnits else 700])
          else Strategy(Single, [50])
  }

  /** The split branch is dead: for every price and budget the strategy is one single order. */
  lemma StrategyIsAlwaysSingle(price: Price, budget: int)
    ensures DetermineOrderStrategy(price, budget).kind == Single
  {
  }

  /** The strategy as the script computes it from the price text: thousands separators dropped, the decimal comma read as a point. */
  function StrategyFor(priceText: Option<string>, budgetEnv: Option<int>): Strategy
  {
    DetermineOrderStrategy(CommaDecimalPrice(priceText.GetOr("")), Budget(budgetEnv))
  }

  // ---------------------------------------------------------------------
  // Availability
  // ---------------------------------------------------------------------

  const AvailableWords: seq<string> := ["tillgänglig", "i lager", "leverans", "beställ"]

  /** The availability test on the lower-cased status text. */
  predicate IsAvailableText(t: string)
  {
    Contains(t, "tillgänglig") || Contains(t, "i lager") || Contains(t, "leverans") || Contains(t, "beställ")
    || (!Contains(t, "slut") && !Contains(t, "tillfälligt slut"))
  }

  /** `result.stockStatus || ''`, lower-cased, then tested. */
  predicate StockAvailable(stockStatus: Option<string>)
  {
    IsAvailableText(ToLower(stockStatus.GetOr("")))
  }

  /** The second test of the last alternative adds nothing: text is available iff it names an available word or does not mention "slut". */
  lemma AvailableIffNoSlut(t: string)
    ensures IsAvailableText(t) <==> ContainsAny(t, AvailableWords) || !Contains(t, "slut")
  {
    if Contains(t, "tillfälligt slut") {
      assert "tillfälligt slut"[12..16] == "slut";
      ContainsAt("tillfälligt slut", "slut", 12);
      ContainsTransitive(t, "tillfälligt slut", "slut");
    }
    if ContainsAny(t, AvailableWords) {
      var w :| w in AvailableWords && Contains(t, w);
    }
    if Contains(t, "tillgänglig") { assert AvailableWords[0] == "tillgänglig"; }
    if Contains(t, "i lager") { assert AvailableWords[1] == "i lager"; }
    if Contains(t, "leverans") { assert AvailableWords[2] == "leverans"; }
    if Contains(t, "beställ") { assert AvailableWords[3] == "beställ"; }
  }

  /** Empty text and "tillfälligt slut i lager" both count as available; "slut" alone does not. */
  lemma AvailabilityExamples()
    ensures IsAvailableText("")
    ensures IsAvailableText("tillfälligt slut i lager")
    ensures !IsAvailableText("slut")
  {
    assert "tillfälligt slut i lager"[17..24] == "i lager";
    ContainsAt("tillfälligt slut i lager", "i lager", 17);
    assert "slut"[0..4] == "slut";
    ContainsAt("slut", "slut", 0);
  }

  // ---------------------------------------------------------------------
  // References and order results
  // ---------------------------------------------------------------------

  /** A reference: the day and the counter value it was generated with. */
  datatype CounterRef = CounterRef(day: nat, counter: nat)

  /** The reference as written on the order: `YYYYMMDD` followed by the counter padded to three digits. */
  function RenderCounterRef(r: CounterRef): string
  {
    CompactDate(r.day) + ZeroPad(r.counter, 3)
  }

  /** References of one day with different counters below 1000 are written differently. */
  lemma RenderedCounterRefsDiffer(day: nat, m: nat, n: nat)
    requires m != n && m < 1000 && n < 1000
    ensures RenderCounterRef(CounterRef(day, m)) != RenderCounterRef(CounterRef(day, n))
  {
    var p := CompactDate(day);
    ThreeDigitNumeral(m);
    ThreeDigitNumeral(n);
    ZeroPadInjective(m, n, 3);
    ZeroPadDigits(m, 3);
    ZeroPadDigits(n, 3);
    assert RenderCounterRef(CounterRef(day, m))[|p|..] == ZeroPad(m, 3);
    assert RenderCounterRef(CounterRef(day, n))[|p|..] == ZeroPad(n, 3);
  }

  /** What one complete order returns: the reference and the quantity, or a failure. */
  datatype OrderResult = Placed(reference: CounterRef, quantity: nat) | Failed
  {
    /** The delivery date filled in: the next working day after the order's day. */
    function DeliveryDay(): nat
      requires Placed?
    {
      NextWeekday(reference.day)
    }
  }

  /** One complete order of `quantity` units placed with reference counter `counter`, given the shop's answer. */
  function PlaceResult(quantity: nat, answer: Outcome, counter: nat, now: nat): OrderResult
  {
    if answer == Success then Placed(CounterRef(DayOf(now), counter), quantity) else Failed
  }

  /** The orders of a strategy placed in turn, stopping after the first failure. */
  function RunOrders(orders: seq<nat>, script: seq<Outcome>, counter: nat, now: nat): seq<OrderResult>
    decreases |orders|
  {
    if |orders| == 0 then []
    else
      var r := PlaceResult(orders[0], Answer(script, 0), counter, now);
      [r] + (if r.Placed? then RunOrders(orders[1..], Consume(script, 1), counter + 1, now) else [])
  }

  /** One step of the run from position `i` of the orders, after the results so far. */
  lemma RunOrdersAt(orders: seq<nat>, i: nat, results: seq<OrderResult>, script: seq<Outcome>, counter: nat, now: nat)
    requires i < |orders|
    ensures var r := PlaceResult(orders[i], Answer(script, 0), counter, now);
            results + RunOrders(orders[i..], script, counter, now)
              == (results + [r]) + (if r.Placed? then RunOrders(orders[i + 1..], Consume(script, 1), counter + 1, now) else [])
  {
    assert orders[i..][0] == orders[i] && orders[i..][1..] == orders[i + 1..];
  }

  function TotalOrdered(results: seq<OrderResult>): nat
    decreases |results|
  {
    if |results| == 0 then 0
    else (if results[0].Placed? then results[0].quantity else 0) + TotalOrdered(results[1..])
  }

  /** The run: orders in list order with consecutive counters; every result but the last succeeded; a short run ended in a failure. */
  lemma {:induction false} RunOrdersShape(orders: seq<nat>, script: seq<Outcome>, counter: nat, now: nat)
    ensures var rs := RunOrders(orders, script, counter, now);
            |rs| <= |orders| && (|orders| > 0 ==> |rs| > 0)
            && (forall i :: 0 <= i < |rs| - 1 ==> rs[i].Placed?)
            && (forall i :: 0 <= i < |rs| ==> (rs[i].Placed? <==> Answer(script, i) == Success))
            && (forall i :: 0 <= i < |rs| && rs[i].Placed? ==>
                  rs[i].quantity == orders[i] && rs[i].reference == CounterRef(DayOf(now), counter + i))
            && (|rs| < |orders| ==> rs[|rs| - 1].Failed?)
    decreases |orders|
  {
    if |orders| > 0 {
      var r := PlaceResult(orders[0], Answer(script, 0), counter, now);
      if r.Placed? {
        RunOrdersShape(orders[1..], Consume(script, 1), counter + 1, now);
        var rest := RunOrders(orders[1..], Consume(script, 1), counter + 1, now);
        var rs := RunOrders(orders, script, counter, now);
        assert rs == [r] + rest;
        forall i | 1 <= i < |rs|
          ensures rs[i] == rest[i - 1] && Answer(script, i) == Answer(Consume(script, 1), i - 1)
        {
        }
      }
    }
  }

  /** How many results of a run went through: all of them, or all but a failed last one. */
  function PlacedCount(rs: seq<OrderResult>): nat
  {
    if |rs| > 0 && rs[|rs| - 1].Failed? then |rs| - 1 else |rs|
  }

  /** The units ordered are the sum of the orders that went through, which are a prefix of the strategy's orders. */
  lemma {:induction false} TotalIsPrefixSum(orders: seq<nat>, script: seq<Outcome>, counter: nat, now: nat)
    ensures var rs := RunOrders(orders, script, counter, now);
            PlacedCount(rs) <= |orders| && TotalOrdered(rs) == Sum(orders[..PlacedCount(rs)])
    decreases |orders|
  {
    var rs := RunOrders(orders, script, counter, now);
    if |orders| == 0 {
      assert rs == [];
    } else {
      var r := PlaceResult(orders[0], Answer(script, 0), counter, now);
      if r.Placed? {
        var rest := RunOrders(orders[1..], Consume(script, 1), counter + 1, now);
        TotalIsPrefixSum(orders[1..], Consume(script, 1), counter + 1, now);
        var k := PlacedCount(rest);
        assert rs == [r] + rest;
        assert rs[1..] == rest;
        assert PlacedCount(rs) == k + 1;
        assert TotalOrdered(rs) == orders[0] + TotalOrdered(rest);
        assert orders[..k + 1][1..] == orders[1..][..k];
      } else {
        assert rs == [r];
        assert orders[..0] == [];
      }
    }
  }

  /** The availability check: the scraper threw, or it returned the stock text and the price text (either may be missing). */
  datatype StockCheck = Threw | Checked(stockStatus: Option<string>, price: Option<string>)

  class CompleteOrderAutomation {
    var orderCounter: nat
    /** The availability seen at the previous check; `None` before the first. */
    var lastStatus: Option<bool>
    var isMonitoring: bool
    /** The shop's remaining answers to complete orders. */
    var responses: seq<Outcome>

    constructor (shop: seq<Outcome>)
      ensures orderCounter == 1 && lastStatus == None && !isMonitoring && responses == shop
    {
      orderCounter := 1;
      lastStatus := None;
      isMonitoring := false;
      responses := shop;
    }

    /** A new reference from today and the counter, which goes up on every call. */
    method GenerateOrderReference(now: nat) returns (r: CounterRef)
      modifies this`orderCounter
      ensures r == CounterRef(DayOf(now), old(orderCounter)) && orderCounter == old(orderCounter) + 1
    {
      r := CounterRef(DayOf(now), orderCounter);
      orderCounter := orderCounter + 1;
    }

    /** One complete order; the reference is drawn before any page step, so a failed order uses a counter value too. */
    method PlaceCompleteOrder(quantity: nat, now: nat) returns (r: OrderResult)
      modifies this`orderCounter, this`responses
      ensures r == PlaceResult(quantity, Answer(old(responses), 0), old(orderCounter), now)
      ensures orderCounter == old(orderCounter) + 1 && responses == Consume(old(responses), 1)
    {
      var reference := GenerateOrderReference(now);
      var answer := Answer(responses, 0);
      responses := Consume(responses, 1);
      if answer == Success {
        r := Placed(reference, quantity);
      } else {
        r := Failed;
      }
    }

    /** The ordering path: nothing without auto-ordering; else the strategy's orders in turn, stopping at the first failure. */
    method HandleStockAvailable(priceText: Option<string>, autoOrderEnabled: bool, budgetEnv: Option<int>, now: nat)
      returns (results: seq<OrderResult>)
      modifies this`orderCounter, this`responses
      ensures !autoOrderEnabled ==> results == [] && orderCounter == old(orderCounter) && responses == old(responses)
      ensures autoOrderEnabled ==>
                results == RunOrders(StrategyFor(priceText, budgetEnv).orders, old(responses), old(orderCounter), now)
                && orderCounter == old(orderCounter) + |results|
                && responses == Consume(old(responses), |results|)
    {
      if !autoOrderEnabled {
        return [];
      }
      var strategy := StrategyFor(priceText, budgetEnv);
      if strategy.kind == Single {
        var r := PlaceCompleteOrder(strategy.orders[0], now);
        results := [r];
        assert strategy.orders[1..] == [];
      } else {
        // No strategy is a split (StrategyIsAlwaysSingle); PlaceSplitOrders models this branch.
        assert false;
      }
    }

    /** The split-order loop: the orders in turn, stopping after the first failure. */
    method PlaceSplitOrders(orders: seq<nat>, now: nat) returns (results: seq<OrderResult>)
      modifies this`orderCounter, this`responses
      ensures results == RunOrders(orders, old(responses), old(orderCounter), now)
      ensures orderCounter == old(orderCounter) + |results| && responses == Consume(old(responses), |results|)
    {
      ghost var script := responses;
      ghost var counter := orderCounter;
      results := [];
      var i := 0;
      while i < |orders|
        invariant 0 <= i <= |orders|
        invariant RunOrders(orders, script, counter, now) == results + RunOrders(orders[i..], responses, orderCounter, now)
        invariant orderCounter == counter + |results| && responses == Consume(script, |results|)
        invariant |results| == i
        decreases |orders| - i
      {
        ghost var before := responses;
        RunOrdersAt(orders, i, results, before, orderCounter, now);
        ConsumeTwice(script, |results|);
        var r := PlaceCompleteOrder(orders[i], now);
        results := results + [r];
        if !r.Placed? {
          break;
        }
        i := i + 1;
      }
    }

    /** One availability check: on a transition from out of stock to available the ordering path runs; the status seen is recorded. */
    method CheckMepiformAvailability(check: StockCheck, autoOrderEnabled: bool, budgetEnv: Option<int>, now: nat)
      returns (available: Option<bool>)
      modifies this`orderCounter, this`responses, this`lastStatus
      ensures check.Threw? ==>
                available.None? && lastStatus == old(lastStatus)
                && orderCounter == old(orderCounter) && responses == old(responses)
      ensures check.Checked? ==>
                available == Some(StockAvailable(check.stockStatus)) && lastStatus == available
      ensures check.Checked? && !(old(lastStatus) == Some(false) && StockAvailable(check.stockStatus) && autoOrderEnabled) ==>
                orderCounter == old(orderCounter) && responses == old(responses)
      ensures check.Checked? && old(lastStatus) == Some(false) && StockAvailable(check.stockStatus) && autoOrderEnabled ==>
                var results := RunOrders(StrategyFor(check.price, budgetEnv).orders, old(responses), old(orderCounter), now);
                orderCounter == old(orderCounter) + |results| && responses == Consume(old(responses), |results|)
    {
      if check.Threw? {
        return None;
      }
      var isAvailable := StockAvailable(check.stockStatus);
      if lastStatus == Some(false) && isAvailable {
        var _ := HandleStockAvailable(check.price, autoOrderEnabled, budgetEnv, now);
      }
      lastStatus := Some(isAvailable);
      available := Some(isAvailable);
    }

    /** Starting is refused while monitoring runs; else it sets the flag and runs the first availability check. */
    method StartMonitoring(first: StockCheck, autoOrderEnabled: bool, budgetEnv: Option<int>, now: nat)
      returns (started: bool, available: Option<bool>)
      modifies this`isMonitoring, this`orderCounter, this`responses, this`lastStatus
      ensures started == !old(isMonitoring) && isMonitoring
      ensures !(started && first.Checked?) ==>
                available.None? && lastStatus == old(lastStatus)
                && orderCounter == old(orderCounter) && responses == old(responses)
      ensures started && first.Checked? ==>
                available == Some(StockAvailable(first.stockStatus)) && lastStatus == available
      ensures started && first.Checked? && !(old(lastStatus) == Some(false) && StockAvailable(first.stockStatus) && autoOrderEnabled) ==>
                orderCounter == old(orderCounter) && responses == old(responses)
      ensures started && first.Checked? && old(lastStatus) == Some(false) && StockAvailable(first.stockStatus) && autoOrderEnabled ==>
                var results := RunOrders(StrategyFor(first.price, budgetEnv).orders, old(responses), old(orderCounter), now);
                orderCounter == old(orderCounter) + |results| && responses == Consume(old(responses), |results|)
    {
      if isMonitoring {
        return false, None;
      }
      isMonitoring := true;
      available := CheckMepiformAvailability(first, autoOrderEnabled, budgetEnv, now);
      started := true;
    }

    /** Stopping clears the flag; it does nothing when monitoring is not running. */
    method StopMonitoring()
      modifies this`isMonitoring
      ensures !isMonitoring
    {
      if !isMonitoring {
        return;
      }
      isMonitoring := false;
    }
  }
}
