/**
 * The order engine of mepiform-order-system.js: two products, a stock
 * classifier, a quantity schedule per product, a halving retry ladder for
 * orders the shop refuses for credit reasons, per-day counters persisted in
 * a daily state file, order references, backorder cooldowns and the
 * working-hours gate of the automation loop.
 */
module MepiformOrderSystem {
  import opened Text
  import opened Wrappers
  import opened Calendar
  import opened Page

  datatype ProductKey = Product1 | Product2

  /** What the product page says about stock. */
  datatype StockStatus = Available | Limited | Unavailable

  const LimitedStockText := "Finns i lager, begränsat antal"
  const InStockText := "Finns i lager"
  const BackorderCooldownMs: nat := 180000
  const Product2DailyLimit: nat := 1620
  const Product1Continuous: nat := 70

  function ProductName(key: ProductKey): string
  {
    match key
    case Product1 => "MEPIFORM 10X18CM"
    case Product2 => "MEPIFORM 5X7,5CM"
  }

  /** The quantities of the first orders of a day, in order. */
  function NormalQuantities(key: ProductKey): seq<nat>
  {
    match key
    case Product1 => [700, 350, 140, 70]
    case Product2 => [900, 450, 270]
  }

  /** The smallest quantity the retry ladder goes down to. */
  function MinimumQuantity(key: ProductKey): nat
  {
    match key
    case Product1 => 35
    case Product2 => 45
  }

  /** The quantity ordered whenever the stock is limited. */
  function LimitedQuantity(key: ProductKey): nat
  {
    match key
    case Product1 => 35
    case Product2 => 45
  }

  /** Reduced quantities are rounded down to a multiple of this (the pack size). */
  function RetryDivisor(key: ProductKey): (d: nat)
    ensures d > 0
  {
    match key
    case Product1 => 7
    case Product2 => 9
  }

  // ---------------------------------------------------------------------
  // Stock classification and cooldown
  // ---------------------------------------------------------------------

  /** The stock text of a product page, classified. */
  function Classify(text: string): (s: StockStatus)
    ensures s == Limited <==> Contains(text, LimitedStockText)
    ensures s == Available <==> text == InStockText
  {
    if Contains(text, LimitedStockText) then Limited
    else if text == InStockText then Available
    else Unavailable
  }

  /** A backorder of the product was deleted less than 180 s ago (a time stamp of 0 counts as none). */
  predicate InCooldown(lastBackorder: Option<nat>, now: nat)
  {
    lastBackorder.Some? && lastBackorder.value != 0 && now - lastBackorder.value < BackorderCooldownMs
  }

  /** The stock check: nothing (`null`) during a backorder cooldown, else the page's stock text classified. */
  function StockCheck(lastBackorder: Option<nat>, now: nat, stockText: string): (r: Option<StockStatus>)
    ensures r.None? <==> InCooldown(lastBackorder, now)
    ensures r.Some? ==> r.value == Classify(stockText)
  {
    if InCooldown(lastBackorder, now) then None else Some(Classify(stockText))
  }

  // ---------------------------------------------------------------------
  // Quantity schedule
  // ---------------------------------------------------------------------

  /** The quantity of the next order, from the stock status, the day's order count and (product 2) the units already ordered today. */
  function OrderQuantity(key: ProductKey, status: StockStatus, orderCount: nat, dailyOrdered: nat): (q: nat)
    ensures status == Limited ==> q == LimitedQuantity(key)
    ensures key == Product1 && status != Limited ==>
              q == if orderCount < |NormalQuantities(Product1)| then NormalQuantities(Product1)[orderCount] else Product1Continuous
    ensures key == Product2 && status != Limited ==>
              (q > 0 <==> dailyOrdered < Product2DailyLimit && orderCount < |NormalQuantities(Product2)|)
    ensures key == Product2 && status != Limited && q > 0 ==>
              dailyOrdered + q <= Product2DailyLimit && q <= NormalQuantities(Product2)[orderCount]
              && (q == NormalQuantities(Product2)[orderCount] || dailyOrdered + q == Product2DailyLimit)
  {
    if status == Limited then LimitedQuantity(key)
    else if key == Product1 then
      var normal := NormalQuantities(Product1);
      if orderCount < |normal| then normal[orderCount] else Product1Continuous
    else if dailyOrdered >= Product2DailyLimit then 0
    else
      var normal := NormalQuantities(Product2);
      if orderCount < |normal| then
        var remaining := Product2DailyLimit - dailyOrdered;
        if normal[orderCount] < remaining then normal[orderCount] else remaining
      else 0
  }

  /** Product 1 orders 700, 350, 140 and 70 units, then 70 units for every further order of the day. */
  lemma Product1Schedule(n: nat)
    ensures OrderQuantity(Product1, Available, 0, 0) == 700
    ensures OrderQuantity(Product1, Available, 1, 0) == 350
    ensures OrderQuantity(Product1, Available, 2, 0) == 140
    ensures OrderQuantity(Product1, Available, 3, 0) == 70
    ensures n >= 4 ==> OrderQuantity(Product1, Available, n, 0) == 70
  {
  }

  /** Three full product-2 orders (900, 450, 270) use up the 1620 daily units; a fourth is zero. */
  lemma Product2Schedule()
    ensures OrderQuantity(Product2, Available, 0, 0) == 900
    ensures OrderQuantity(Product2, Available, 1, 900) == 450
    ensures OrderQuantity(Product2, Available, 2, 1350) == 270
    ensures 900 + 450 + 270 == Product2DailyLimit
    ensures OrderQuantity(Product2, Available, 3, Product2DailyLimit) == 0
  {
  }

  /** Limited stock orders its fixed quantity even when product 2's daily limit is used up. */
  lemma LimitedStockIgnoresDailyLimit(orderCount: nat, dailyOrdered: nat)
    requires dailyOrdered >= Product2DailyLimit
    ensures OrderQuantity(Product2, Limited, orderCount, dailyOrdered) == 45
    ensures OrderQuantity(Product2, Available, orderCount, dailyOrdered) == 0
  {
  }

  // ---------------------------------------------------------------------
  // Retry ladder
  // ---------------------------------------------------------------------

  /** `x` is a whole number of packs of `d` units. */
  predicate MultipleOf(x: nat, d: nat)
    requires d > 0
    decreases x
  {
    x == 0 || (x >= d && MultipleOf(x - d, d))
  }

  lemma {:induction false} ProductIsMultiple(k: nat, d: nat)
    requires d > 0
    ensures MultipleOf(k * d, d)
  {
    if k > 0 {
      ProductIsMultiple(k - 1, d);
      assert k * d == (k - 1) * d + d;
    }
  }

  /** `h` rounded down to a multiple of `d`: `Math.floor(h / d) * d`. */
  function RoundDown(h: nat, d: nat): (r: nat)
    requires d > 0
    ensures r <= h && MultipleOf(r, d)
  {
    ProductIsMultiple(h / d, d);
    (h / d) * d
  }

  /** One step down the ladder: halve, round down to a multiple of `divisor`, never below `minimum`. */
  function ReduceStep(q: nat, minimum: nat, divisor: nat): (r: nat)
    requires divisor > 0
    ensures r >= minimum
    ensures r == minimum || (MultipleOf(r, divisor) && r <= q / 2)
    ensures q > minimum ==> r < q
  {
    var half := q / 2;
    assert half % divisor == 0 ==> MultipleOf(half, divisor) by {
      if half % divisor == 0 {
        ProductIsMultiple(half / divisor, divisor);
        assert half == (half / divisor) * divisor;
      }
    }
    var rounded := if half % divisor != 0 then RoundDown(half, divisor) else half;
    if rounded < minimum then minimum else rounded
  }

  /** The quantities the retry loop tries after `q` was refused, in order. */
  function Ladder(q: nat, minimum: nat, divisor: nat): (qs: seq<nat>)
    requires divisor > 0
    ensures |qs| == 0 <==> q <= minimum
    decreases q
  {
    if q <= minimum then []
    else
      var r := ReduceStep(q, minimum, divisor);
      [r] + Ladder(r, minimum, divisor)
  }

  /** The ladder strictly decreases, stays between the minimum and the refused quantity, keeps to multiples of the divisor and ends at the minimum. */
  lemma {:induction false} LadderShape(q: nat, minimum: nat, divisor: nat)
    requires divisor > 0
    ensures var qs := Ladder(q, minimum, divisor);
            (forall i :: 0 <= i < |qs| ==> minimum <= qs[i] < q)
            && (forall i, j :: 0 <= i < j < |qs| ==> qs[i] > qs[j])
            && (forall i :: 0 <= i < |qs| ==> qs[i] == minimum || MultipleOf(qs[i], divisor))
            && (|qs| > 0 ==> qs[|qs| - 1] == minimum)
    decreases q
  {
    if q > minimum {
      var r := ReduceStep(q, minimum, divisor);
      LadderShape(r, minimum, divisor);
    }
  }

  /** Product 1's ladder from 700 units. */
  lemma Product1Ladder()
    ensures Ladder(700, 35, 7) == [350, 175, 84, 42, 35]
  {
    assert ReduceStep(42, 35, 7) == 35;
    assert ReduceStep(84, 35, 7) == 42;
    assert ReduceStep(175, 35, 7) == 84;
    assert ReduceStep(350, 35, 7) == 175;
    assert ReduceStep(700, 35, 7) == 350;
    assert Ladder(35, 35, 7) == [];
    assert Ladder(42, 35, 7) == [35];
    assert Ladder(84, 35, 7) == [42, 35];
    assert Ladder(175, 35, 7) == [84, 42, 35];
    assert Ladder(350, 35, 7) == [175, 84, 42, 35];
  }

  /** Product 2's ladder from 900 units. */
  lemma Product2Ladder()
    ensures Ladder(900, 45, 9) == [450, 225, 108, 54, 45]
  {
    assert ReduceStep(54, 45, 9) == 45;
    assert ReduceStep(108, 45, 9) == 54;
    assert ReduceStep(225, 45, 9) == 108;
    assert ReduceStep(450, 45, 9) == 225;
    assert ReduceStep(900, 45, 9) == 450;
    assert Ladder(45, 45, 9) == [];
    assert Ladder(54, 45, 9) == [45];
    assert Ladder(108, 45, 9) == [54, 45];
    assert Ladder(225, 45, 9) == [108, 54, 45];
    assert Ladder(450, 45, 9) == [225, 108, 54, 45];
  }

  /** The first answer, from position `j` on and before `n`, that is a success (`n` when there is none). */
  function FirstSuccessFrom(script: seq<Outcome>, j: nat, n: nat): (i: nat)
    ensures j <= n ==> j <= i <= n
    ensures forall k :: j <= k < i ==> Answer(script, k) != Success
    ensures i < n ==> Answer(script, i) == Success
    decreases n - j
  {
    if j >= n then n
    else if Answer(script, j) == Success then j
    else FirstSuccessFrom(script, j + 1, n)
  }

  /** How an order attempt ended: the quantity that went through (if any), whether it was the first submission, and how many shop answers it used. */
  datatype Attempt = Attempt(placed: Option<nat>, firstTry: bool, used: nat)

  /** The retry ladder after `current` was refused: the first rung the shop accepts. */
  function RetryOutcome(key: ProductKey, current: nat, script: seq<Outcome>): Attempt
  {
    var rungs := Ladder(current, MinimumQuantity(key), RetryDivisor(key));
    var i := FirstSuccessFrom(script, 0, |rungs|);
    if i < |rungs| then Attempt(Some(rungs[i]), false, i + 1) else Attempt(None, false, |rungs|)
  }

  /** A whole order: the first submission, then the ladder only when the shop refused for credit reasons. */
  function PlaceOutcome(key: ProductKey, quantity: nat, script: seq<Outcome>): Attempt
  {
    match Answer(script, 0)
    case Success => Attempt(Some(quantity), true, 1)
    case CreditFailure =>
      var r := RetryOutcome(key, quantity, Consume(script, 1));
      Attempt(r.placed, false, 1 + r.used)
    case OtherFailure => Attempt(None, false, 1)
  }

  /** A placed order never exceeds the requested quantity; a reduced one is a rung of the ladder, at least the minimum and strictly less than requested. */
  lemma PlacedWithinRequest(key: ProductKey, quantity: nat, script: seq<Outcome>)
    ensures var a := PlaceOutcome(key, quantity, script);
            a.placed.Some? ==>
              (a.placed.value <= quantity
               && (a.firstTry <==> Answer(script, 0) == Success)
               && (!a.firstTry ==>
                     (MinimumQuantity(key) <= a.placed.value < quantity
                      && a.placed.value in Ladder(quantity, MinimumQuantity(key), RetryDivisor(key)))))
  {
    var a := PlaceOutcome(key, quantity, script);
    if Answer(script, 0) == CreditFailure {
      var rungs := Ladder(quantity, MinimumQuantity(key), RetryDivisor(key));
      var i := FirstSuccessFrom(Consume(script, 1), 0, |rungs|);
      if i < |rungs| {
        LadderShape(quantity, MinimumQuantity(key), RetryDivisor(key));
        assert a.placed.value == rungs[i];
      }
    }
  }

  /** A product-2 order sized by the schedule keeps the day's units within the daily limit, whether it goes through at once or reduced. */
  lemma Product2OrderKeepsDailyLimit(orderCount: nat, dailyOrdered: nat, script: seq<Outcome>)
    requires dailyOrdered <= Product2DailyLimit
    ensures var q := OrderQuantity(Product2, Available, orderCount, dailyOrdered);
            var a := PlaceOutcome(Product2, q, script);
            q > 0 && a.placed.Some? ==> dailyOrdered + a.placed.value <= Product2DailyLimit
  {
    var q := OrderQuantity(Product2, Available, orderCount, dailyOrdered);
    PlacedWithinRequest(Product2, q, script);
  }

  /** Every submission the order makes uses one answer, and a refusal other than a credit refusal ends it at once. */
  lemma AttemptsUsed(key: ProductKey, quantity: nat, script: seq<Outcome>)
    ensures var a := PlaceOutcome(key, quantity, script);
            1 <= a.used <= 1 + |Ladder(quantity, MinimumQuantity(key), RetryDivisor(key))|
            && (Answer(script, 0) != CreditFailure ==> a.used == 1)
            && (a.placed.None? && Answer(script, 0) == CreditFailure ==>
                  a.used == 1 + |Ladder(quantity, MinimumQuantity(key), RetryDivisor(key))|)
  {
  }

  // ---------------------------------------------------------------------
  // Daily state
  // ---------------------------------------------------------------------

  /** One entry of today's orders. */
  datatype TodayEntry = TodayEntry(product: string, quantity: nat, reference: OrderRef, time: nat)

  /** One entry of a product's order history. */
  datatype HistoryEntry = HistoryEntry(quantity: nat, reference: OrderRef, time: nat)

  /** The per-day counters: both order counts, product 2's units, today's orders. */
  datatype Daily = Daily(count1: nat, count2: nat, ordered2: nat, todays: seq<TodayEntry>)

  /** The daily state file's content; a field may be missing (`|| 0`, `|| []` defaults apply). */
  datatype DailyState = DailyState(
    date: nat,
    product1OrderCount: Option<nat>,
    product2OrderCount: Option<nat>,
    product2DailyOrdered: Option<nat>,
    todaysOrders: Option<seq<TodayEntry>>)

  datatype StoredFile = Missing | Unreadable | Stored(state: DailyState)

  const FreshDay: Daily := Daily(0, 0, 0, [])

  function OrderCount(d: Daily, key: ProductKey): nat
  {
    match key
    case Product1 => d.count1
    case Product2 => d.count2
  }

  /** The counters after an order of `q` units of `key` went through. */
  function Counted(d: Daily, key: ProductKey, q: nat): Daily
  {
    match key
    case Product1 => d.(count1 := d.count1 + 1)
    case Product2 => d.(count2 := d.count2 + 1, ordered2 := d.ordered2 + q)
  }

  /**
   * The daily state after an attempt `a` to order `quantity` units of `key`:
   * unchanged when nothing was placed; a first-time success is counted and
   * listed among today's orders; a reduced order is only counted.
   */
  function AfterOrder(d: Daily, key: ProductKey, quantity: nat, a: Attempt, now: nat): Daily
  {
    if a.placed.None? then d
    else if a.firstTry then
      var c := Counted(d, key, quantity);
      c.(todays := c.todays + [TodayEntry(ProductName(key), quantity, OrderRef(DayOf(now), |d.todays| + 1), now)])
    else Counted(d, key, a.placed.value)
  }

  /** What saving the daily state writes. */
  function Snapshot(d: Daily, date: nat): DailyState
  {
    DailyState(date, Some(d.count1), Some(d.count2), Some(d.ordered2), Some(d.todays))
  }

  /** The counters a start-up reload restores; `None` when the file is missing, unreadable or from another day. */
  function Reload(file: StoredFile, today: nat): Option<Daily>
  {
    if file.Stored? && file.state.date == today then
      var s := file.state;
      Some(Daily(s.product1OrderCount.GetOr(0), s.product2OrderCount.GetOr(0),
                 s.product2DailyOrdered.GetOr(0), s.todaysOrders.GetOr([])))
    else None
  }

  /** Saving and reloading on the same day restores the counters; on any other day the reload resets them. */
  lemma ReloadAfterSave(d: Daily, date: nat, today: nat)
    ensures Reload(Stored(Snapshot(d, date)), today) == if today == date then Some(d) else None
  {
  }

  /** An order reference: the day it was generated and its number on that day. */
  datatype OrderRef = OrderRef(day: nat, number: nat)

  /** The reference as written on the order form: `YYYYMMDD-NN`. */
  function RenderReference(r: OrderRef): string
  {
    CompactDate(r.day) + "-" + ZeroPad(r.number, 2)
  }

  /** References of the same day with different order numbers below 100 are written differently. */
  lemma RenderedReferencesDiffer(day: nat, m: nat, n: nat)
    requires m != n && m < 100 && n < 100
    ensures RenderReference(OrderRef(day, m)) != RenderReference(OrderRef(day, n))
  {
    var p := CompactDate(day) + "-";
    TwoDigitNumeral(m);
    TwoDigitNumeral(n);
    ZeroPadInjective(m, n, 2);
    ZeroPadDigits(m, 2);
    ZeroPadDigits(n, 2);
    assert RenderReference(OrderRef(day, m))[|p|..] == ZeroPad(m, 2);
    assert RenderReference(OrderRef(day, n))[|p|..] == ZeroPad(n, 2);
  }

  /** The wait between two cycles, from a random draw `floor(Math.random() * 4000)`. */
  function RandomInterval(draw: nat): (ms: nat)
    requires draw < 4000
    ensures 8000 <= ms < 12000
  {
    draw + 8000
  }

  /** The automation loop works only Monday to Friday, from 07:00 to before 18:00. */
  predicate IsWorkingTime(now: nat)
  {
    var day := WeekdayOf(DayOf(now));
    var hour := HourOf(now);
    !(day == 0 || day == 6 || hour < 7 || hour >= 18)
  }

  lemma WorkingTimeMeansWeekdayDaytime(now: nat)
    ensures IsWorkingTime(now) <==> !IsWeekend(DayOf(now)) && 7 <= HourOf(now) < 18
  {
  }

  // ---------------------------------------------------------------------
  // Backorders
  // ---------------------------------------------------------------------

  /** One row of the backorder list: product name, ordered and backordered quantity as shown. */
  datatype BackorderRow = BackorderRow(productName: string, orderedQty: string, backorderQty: string)

  /** A row is deleted when nothing of it was delivered. */
  predicate Deletable(row: BackorderRow)
  {
    row.orderedQty == row.backorderQty && row.orderedQty != ""
  }

  /** The product whose cooldown a deleted row starts. */
  function RowProduct(row: BackorderRow): Option<ProductKey>
  {
    if Contains(row.productName, "10X18CM") then Some(Product1)
    else if Contains(row.productName, "5X7,5CM") then Some(Product2)
    else None
  }

  predicate DeletesBackorderOf(rows: seq<BackorderRow>, key: ProductKey)
  {
    exists i :: 0 <= i < |rows| && Deletable(rows[i]) && RowProduct(rows[i]) == Some(key)
  }

  lemma DeletesBackorderOfSnoc(rows: seq<BackorderRow>, row: BackorderRow, key: ProductKey)
    ensures DeletesBackorderOf(rows + [row], key) <==>
              DeletesBackorderOf(rows, key) || (Deletable(row) && RowProduct(row) == Some(key))
  {
    var all := rows + [row];
    if DeletesBackorderOf(rows, key) {
      var i :| 0 <= i < |rows| && Deletable(rows[i]) && RowProduct(rows[i]) == Some(key);
      assert all[i] == rows[i];
    }
    if Deletable(row) && RowProduct(row) == Some(key) {
      assert all[|rows|] == row;
    }
    if DeletesBackorderOf(all, key) {
      var i :| 0 <= i < |all| && Deletable(all[i]) && RowProduct(all[i]) == Some(key);
      if i < |rows| {
        assert all[i] == rows[i];
      }
    }
  }

  /** The quantity a cycle orders of `key` on a stock check: none unless the product was seen in stock. */
  function CycleQuantity(key: ProductKey, status: Option<StockStatus>, d: Daily): (q: nat)
    ensures status.None? || status == Some(Unavailable) ==> q == 0
    ensures status == Some(Limited) ==> q == LimitedQuantity(key)
    ensures status == Some(Available) ==> q == OrderQuantity(key, Available, OrderCount(d, key), d.ordered2)
  {
    if status == Some(Available) || status == Some(Limited) then OrderQuantity(key, status.value, OrderCount(d, key), d.ordered2)
    else 0
  }

  /** Everything an order changes: the daily counters, both histories, the success-alert flag, the state file and the shop's remaining answers. */
  datatype Ledger = Ledger(daily: Daily, history1: seq<HistoryEntry>, history2: seq<HistoryEntry>,
                           successAlertShown: bool, stateFile: StoredFile, responses: seq<Outcome>)

  /**
   * The ledger after an order of `quantity` units of `key`: the counters as
   * AfterOrder gives them; a first-time success is also added to the
   * product's history, saved to the state file and raises the alert flag.
   */
  function OrderStep(l: Ledger, key: ProductKey, quantity: nat, now: nat): Ledger
  {
    var a := PlaceOutcome(key, quantity, l.responses);
    var d := AfterOrder(l.daily, key, quantity, a, now);
    var first := a.placed.Some? && a.firstTry;
    var entry := HistoryEntry(quantity, OrderRef(DayOf(now), |l.daily.todays| + 1), now);
    Ledger(d,
           if first && key == Product1 then l.history1 + [entry] else l.history1,
           if first && key == Product2 then l.history2 + [entry] else l.history2,
           l.successAlertShown || first,
           if first then Stored(Snapshot(d, DayOf(now))) else l.stateFile,
           Consume(l.responses, a.used))
  }

  /** One product's part of a cycle: its stock check, and an order of the cycle's quantity when there is one. */
  function CycleStep(l: Ledger, key: ProductKey, lastBackorder: Option<nat>, now: nat, stockText: string): Ledger
  {
    var q := CycleQuantity(key, StockCheck(lastBackorder, now, stockText), l.daily);
    if q > 0 then OrderStep(l, key, q, now) else l
  }

  /** A first-time success leaves a state file that a same-day reload reads back as exactly the new counters; any other order leaves the file alone. */
  lemma OrderStepSavesCounters(l: Ledger, key: ProductKey, quantity: nat, now: nat)
    ensures var a := PlaceOutcome(key, quantity, l.responses);
            var l2 := OrderStep(l, key, quantity, now);
            if a.placed.Some? && a.firstTry then Reload(l2.stateFile, DayOf(now)) == Some(l2.daily)
            else l2.stateFile == l.stateFile && l2.history1 == l.history1 && l2.history2 == l.history2
  {
    var a := PlaceOutcome(key, quantity, l.responses);
    if a.placed.Some? && a.firstTry {
      ReloadAfterSave(AfterOrder(l.daily, key, quantity, a, now), DayOf(now), DayOf(now));
    }
  }

  // ---------------------------------------------------------------------
  // The order system
  // ---------------------------------------------------------------------

  class OrderSystem {
    var daily: Daily
    var history1: seq<HistoryEntry>
    var history2: seq<HistoryEntry>
    var lastBackorder1: Option<nat>
    var lastBackorder2: Option<nat>
    var successAlertShown: bool
    /** The daily state file. */
    var stateFile: StoredFile
    /** The shop's remaining answers to order submissions. */
    var responses: seq<Outcome>

    constructor (file: StoredFile, shop: seq<Outcome>)
      ensures daily == FreshDay && history1 == [] && history2 == []
      ensures lastBackorder1 == None && lastBackorder2 == None && !successAlertShown
      ensures stateFile == file && responses == shop
    {
      daily := FreshDay;
      history1 := [];
      history2 := [];
      lastBackorder1 := None;
      lastBackorder2 := None;
      successAlertShown := false;
      stateFile := file;
      responses := shop;
    }

    function LastBackorder(key: ProductKey): Option<nat>
      reads this
    {
      match key
      case Product1 => lastBackorder1
      case Product2 => lastBackorder2
    }

    /** The fields an order changes, as one value. */
    function CurrentLedger(): Ledger
      reads this
    {
      Ledger(daily, history1, history2, successAlertShown, stateFile, responses)
    }

    /** The stock check of `key`, with this object's backorder time. */
    function CheckProductInventory(key: ProductKey, now: nat, stockText: string): Option<StockStatus>
      reads this
    {
      StockCheck(LastBackorder(key), now, stockText)
    }

    /** The start-up reset: restore today's counters from the file, or start a fresh day and save it. */
    method ResetDailyCounters(today: nat)
      modifies this
      ensures Reload(old(stateFile), today).Some? ==>
                daily == Reload(old(stateFile), today).value && stateFile == old(stateFile)
                && successAlertShown == old(successAlertShown)
      ensures Reload(old(stateFile), today).None? ==>
                daily == FreshDay && stateFile == Stored(Snapshot(FreshDay, today)) && !successAlertShown
      ensures history1 == old(history1) && history2 == old(history2)
      ensures lastBackorder1 == old(lastBackorder1) && lastBackorder2 == old(lastBackorder2)
      ensures responses == old(responses)
    {
      var restored := Reload(stateFile, today);
      if restored.Some? {
        daily := restored.value;
      } else {
        ResetAllCounters();
        stateFile := Stored(Snapshot(daily, today));
      }
    }

    method ResetAllCounters()
      modifies this
      ensures daily == FreshDay && !successAlertShown
      ensures history1 == old(history1) && history2 == old(history2)
      ensures lastBackorder1 == old(lastBackorder1) && lastBackorder2 == old(lastBackorder2)
      ensures stateFile == old(stateFile) && responses == old(responses)
    {
      daily := FreshDay;
      successAlertShown := false;
    }

    /** The reference of the next order: today and one more than today's orders. */
    function GenerateOrderReference(now: nat): OrderRef
      reads this
    {
      OrderRef(DayOf(now), |daily.todays| + 1)
    }

    /** The delivery date: the first weekday after today. */
    method GetNextBusinessDay(now: nat) returns (iso: string)
      ensures iso == IsoDate(NextWeekday(DayOf(now)))
    {
      var today := DayOf(now);
      var d := today + 1;
      while IsWeekend(d)
        invariant today < d <= NextWeekday(today)
        invariant forall k :: today < k < d ==> IsWeekend(k)
        decreases NextWeekday(today) - d
      {
        d := d + 1;
      }
      assert d == NextWeekday(today);
      iso := IsoDate(d);
    }

    /** Submits the order form: the shop's next answer. */
    method Submit() returns (o: Outcome)
      modifies this`responses
      ensures o == Answer(old(responses), 0) && responses == Consume(old(responses), 1)
    {
      o := Answer(responses, 0);
      responses := Consume(responses, 1);
    }

    /** The ladder after `current` was refused: resubmit ever smaller quantities until one goes through or the minimum was refused. */
    method RetryWithReducedQuantity(key: ProductKey, current: nat) returns (ok: bool)
      modifies this
      ensures var a := RetryOutcome(key, current, old(responses));
              ok == a.placed.Some?
              && responses == Consume(old(responses), a.used)
              && daily == (if ok then Counted(old(daily), key, a.placed.value) else old(daily))
      ensures history1 == old(history1) && history2 == old(history2)
      ensures lastBackorder1 == old(lastBackorder1) && lastBackorder2 == old(lastBackorder2)
      ensures successAlertShown == old(successAlertShown) && stateFile == old(stateFile)
    {
      var minimum := MinimumQuantity(key);
      var divisor := RetryDivisor(key);
      ghost var script := responses;
      ghost var rungs := Ladder(current, minimum, divisor);
      var newQuantity := current;
      ghost var i: nat := 0;
      while newQuantity > minimum
        invariant i <= |rungs| && Ladder(newQuantity, minimum, divisor) == rungs[i..]
        invariant responses == Consume(script, i)
        invariant forall k :: 0 <= k < i ==> Answer(script, k) != Success
        invariant daily == old(daily)
        invariant history1 == old(history1) && history2 == old(history2)
        invariant lastBackorder1 == old(lastBackorder1) && lastBackorder2 == old(lastBackorder2)
        invariant successAlertShown == old(successAlertShown) && stateFile == old(stateFile)
        decreases newQuantity
      {
        newQuantity := ReduceStep(newQuantity, minimum, divisor);
        assert rungs[i] == newQuantity && Ladder(newQuantity, minimum, divisor) == rungs[i + 1..];
        var o := Submit();
        ConsumeAnswer(script, i, 0);
        assert Consume(Consume(script, i), 1) == Consume(script, i + 1);
        i := i + 1;
        if o == Success {
          daily := Counted(daily, key, newQuantity);
          ok := true;
          assert FirstSuccessFrom(script, 0, |rungs|) == i - 1;
          return;
        }
        if newQuantity == minimum {
          ok := false;
          return;
        }
      }
      ok := false;
    }

    /** Places an order of `quantity` units: on a first-time success it counts, records and saves; on a credit refusal it runs the ladder. */
    method PlaceOrder(key: ProductKey, quantity: nat, now: nat) returns (ok: bool)
      modifies this
      ensures var a := PlaceOutcome(key, quantity, old(responses));
              ok == a.placed.Some?
              && responses == Consume(old(responses), a.used)
              && daily == AfterOrder(old(daily), key, quantity, a, now)
              && successAlertShown == (old(successAlertShown) || (ok && a.firstTry))
              && stateFile == (if ok && a.firstTry then Stored(Snapshot(daily, DayOf(now))) else old(stateFile))
      ensures var a := PlaceOutcome(key, quantity, old(responses));
              var entry := HistoryEntry(quantity, OrderRef(DayOf(now), |old(daily.todays)| + 1), now);
              history1 == (if ok && a.firstTry && key == Product1 then old(history1) + [entry] else old(history1))
              && history2 == (if ok && a.firstTry && key == Product2 then old(history2) + [entry] else old(history2))
      ensures lastBackorder1 == old(lastBackorder1) && lastBackorder2 == old(lastBackorder2)
      ensures CurrentLedger() == OrderStep(old(CurrentLedger()), key, quantity, now)
    {
      var reference := GenerateOrderReference(now);
      ghost var script := responses;
      var o := Submit();
      if o == Success {
        daily := Counted(daily, key, quantity);
        if key == Product1 {
          history1 := history1 + [HistoryEntry(quantity, reference, now)];
        } else {
          history2 := history2 + [HistoryEntry(quantity, reference, now)];
        }
        daily := daily.(todays := daily.todays + [TodayEntry(ProductName(key), quantity, reference, now)]);
        stateFile := Stored(Snapshot(daily, DayOf(now)));
        if !successAlertShown {
          successAlertShown := true;
        }
        ok := true;
      } else if o == CreditFailure {
        ok := RetryWithReducedQuantity(key, quantity);
        assert Consume(Consume(script, 1), RetryOutcome(key, quantity, Consume(script, 1)).used)
            == Consume(script, PlaceOutcome(key, quantity, script).used);
      } else {
        ok := false;
      }
    }

    /** Walks the backorder list: each deleted row starts its product's cooldown at `now`. */
    method CheckAndDeleteBackorders(rows: seq<BackorderRow>, now: nat)
      modifies this
      ensures lastBackorder1 == if DeletesBackorderOf(rows, Product1) then Some(now) else old(lastBackorder1)
      ensures lastBackorder2 == if DeletesBackorderOf(rows, Product2) then Some(now) else old(lastBackorder2)
      ensures daily == old(daily) && history1 == old(history1) && history2 == old(history2)
      ensures successAlertShown == old(successAlertShown) && stateFile == old(stateFile)
      ensures responses == old(responses)
    {
      for i := 0 to |rows|
        invariant lastBackorder1 == if DeletesBackorderOf(rows[..i], Product1) then Some(now) else old(lastBackorder1)
        invariant lastBackorder2 == if DeletesBackorderOf(rows[..i], Product2) then Some(now) else old(lastBackorder2)
        invariant daily == old(daily) && history1 == old(history1) && history2 == old(history2)
        invariant successAlertShown == old(successAlertShown) && stateFile == old(stateFile)
        invariant responses == old(responses)
      {
        var row := rows[i];
        assert rows[..i + 1] == rows[..i] + [row];
        if Deletable(row) {
          var product := RowProduct(row);
          if product == Some(Product1) {
            lastBackorder1 := Some(now);
          } else if product == Some(Product2) {
            lastBackorder2 := Some(now);
          }
        }
        DeletesBackorderOfSnoc(rows[..i], row, Product1);
        DeletesBackorderOfSnoc(rows[..i], row, Product2);
      }
      assert rows[..|rows|] == rows;
    }

    /**
     * One cycle of the automation loop at time `now`, given both product
     * pages' stock texts and the backorder list: product 1 is checked and
     * ordered, then product 2 on the counters product 1 left, then the
     * backorder list is walked.
     */
    method RunCycle(now: nat, stockText1: string, stockText2: string, rows: seq<BackorderRow>) returns (worked: bool)
      modifies this
      ensures worked == IsWorkingTime(now)
      ensures !worked ==> daily == old(daily) && responses == old(responses)
                          && lastBackorder1 == old(lastBackorder1) && lastBackorder2 == old(lastBackorder2)
      ensures !worked ==> CurrentLedger() == old(CurrentLedger())
      ensures worked ==>
                CurrentLedger() == CycleStep(CycleStep(old(CurrentLedger()), Product1, old(lastBackorder1), now, stockText1),
                                             Product2, old(lastBackorder2), now, stockText2)
      ensures worked ==>
                var q1 := CycleQuantity(Product1, StockCheck(old(lastBackorder1), now, stockText1), old(daily));
                var a1 := PlaceOutcome(Product1, q1, old(responses));
                var d1 := if q1 > 0 then AfterOrder(old(daily), Product1, q1, a1, now) else old(daily);
                var r1 := if q1 > 0 then Consume(old(responses), a1.used) else old(responses);
                var q2 := CycleQuantity(Product2, StockCheck(old(lastBackorder2), now, stockText2), d1);
                var a2 := PlaceOutcome(Product2, q2, r1);
                daily == (if q2 > 0 then AfterOrder(d1, Product2, q2, a2, now) else d1)
                && responses == (if q2 > 0 then Consume(r1, a2.used) else r1)
      ensures worked ==>
                lastBackorder1 == (if DeletesBackorderOf(rows, Product1) then Some(now) else old(lastBackorder1))
                && lastBackorder2 == (if DeletesBackorderOf(rows, Product2) then Some(now) else old(lastBackorder2))
      ensures worked && InCooldown(old(lastBackorder1), now) ==> daily.count1 == old(daily.count1)
      ensures worked && InCooldown(old(lastBackorder2), now) ==> daily.count2 == old(daily.count2) && daily.ordered2 == old(daily.ordered2)
      ensures worked && !InCooldown(old(lastBackorder1), now) && Classify(stockText1) == Unavailable ==> daily.count1 == old(daily.count1)
      ensures worked && !InCooldown(old(lastBackorder2), now) && Classify(stockText2) == Unavailable ==>
                daily.count2 == old(daily.count2) && daily.ordered2 == old(daily.ordered2)
    {
      worked := IsWorkingTime(now);
      if !worked {
        return;
      }
      ghost var ledger0 := CurrentLedger();
      var status1 := CheckProductInventory(Product1, now, stockText1);
      if status1 == Some(Available) || status1 == Some(Limited) {
        var quantity := OrderQuantity(Product1, status1.value, daily.count1, daily.ordered2);
        if quantity > 0 {
          var _ := PlaceOrder(Product1, quantity, now);
        }
      }
      ghost var count1 := daily.count1;
      ghost var ledger1 := CurrentLedger();
      assert ledger1 == CycleStep(ledger0, Product1, lastBackorder1, now, stockText1);
      var status2 := CheckProductInventory(Product2, now, stockText2);
      if status2 == Some(Available) || status2 == Some(Limited) {
        var quantity := OrderQuantity(Product2, status2.value, daily.count2, daily.ordered2);
        if quantity > 0 {
          var _ := PlaceOrder(Product2, quantity, now);
        }
      }
      assert daily.count1 == count1;
      assert CurrentLedger() == CycleStep(ledger1, Product2, lastBackorder2, now, stockText2);
      CheckAndDeleteBackorders(rows, now);
    }
  }
}
