/**
 * The order engine of mepiform-automation.js. Its stock classifier, backorder
 * cooldown, quantity schedule and ladder step are the same as those of
 * mepiform-order-system.js and are shared with that module. What differs:
 * a credit refusal met during the retry ladder starts a ladder of its own
 * (confirm and retry call each other), a successful order counts the
 * quantity first requested, references are numbered from the day's total,
 * the daily reset file holds only the date, the loop is gated by the hour
 * alone and every row whose two quantities agree is deleted as a backorder.
 */
module MepiformAutomation {
  import opened Wrappers
  import opened Calendar
  import opened Page
  import opened MepiformOrderSystem

  /** How a confirmation (with whatever retries it triggers) ended: the quantity confirmed, if any, and the shop's remaining answers. */
  datatype Chain = Chain(confirmed: Option<nat>, rest: seq<Outcome>)

  /** One order confirmation of `q` units: on a credit refusal it runs the retry ladder from `q`. */
  function Confirm(key: ProductKey, q: nat, script: seq<Outcome>): Chain
    decreases q, 1
  {
    match Answer(script, 0)
    case Success => Chain(Some(q), Consume(script, 1))
    case CreditFailure => Retry(key, q, Consume(script, 1))
    case OtherFailure => Chain(None, Consume(script, 1))
  }

  /** The retry ladder from `current`: each rung is confirmed (and may start a ladder of its own); refusing the minimum ends it. */
  function Retry(key: ProductKey, current: nat, script: seq<Outcome>): Chain
    decreases current, 0
  {
    if current <= MinimumQuantity(key) then Chain(None, script)
    else
      var next := ReduceStep(current, MinimumQuantity(key), RetryDivisor(key));
      var c := Confirm(key, next, script);
      if c.confirmed.Some? || next == MinimumQuantity(key) then c
      else Retry(key, next, c.rest)
  }

  /** A confirmed quantity never exceeds the one asked for, and a reduced one is at least the minimum. */
  lemma {:induction false} ConfirmBound(key: ProductKey, q: nat, script: seq<Outcome>)
    ensures var c := Confirm(key, q, script);
            c.confirmed.Some? ==>
              (c.confirmed.value <= q && (c.confirmed.value < q ==> MinimumQuantity(key) <= c.confirmed.value))
    decreases q, 1
  {
    if Answer(script, 0) == CreditFailure {
      RetryBound(key, q, Consume(script, 1));
    }
  }

  /** Whatever the ladder from `current` confirms lies between the minimum and `current` (exclusive). */
  lemma {:induction false} RetryBound(key: ProductKey, current: nat, script: seq<Outcome>)
    ensures var c := Retry(key, current, script);
            c.confirmed.Some? ==> MinimumQuantity(key) <= c.confirmed.value < current
    decreases current, 0
  {
    if current > MinimumQuantity(key) {
      var next := ReduceStep(current, MinimumQuantity(key), RetryDivisor(key));
      ConfirmBound(key, next, script);
      var c := Confirm(key, next, script);
      if !(c.confirmed.Some? || next == MinimumQuantity(key)) {
        RetryBound(key, next, c.rest);
      }
    }
  }

  /** Every confirmation uses at least one of the shop's answers when there are any, and never more than there are. */
  lemma {:induction false} ConfirmConsumes(key: ProductKey, q: nat, script: seq<Outcome>)
    ensures |Confirm(key, q, script).rest| <= |script|
    ensures |script| > 0 ==> |Confirm(key, q, script).rest| < |script|
    decreases q, 1
  {
    if Answer(script, 0) == CreditFailure {
      RetryConsumes(key, q, Consume(script, 1));
    }
  }

  lemma {:induction false} RetryConsumes(key: ProductKey, current: nat, script: seq<Outcome>)
    ensures |Retry(key, current, script).rest| <= |script|
    decreases current, 0
  {
    if current > MinimumQuantity(key) {
      var next := ReduceStep(current, MinimumQuantity(key), RetryDivisor(key));
      ConfirmConsumes(key, next, script);
      var c := Confirm(key, next, script);
      if !(c.confirmed.Some? || next == MinimumQuantity(key)) {
        RetryConsumes(key, next, c.rest);
      }
    }
  }

  /** A credit refusal of 900 units followed by a success confirms 450; a refusal at 350 units starts a second ladder whose first rung, 175, goes through. */
  lemma NestedLadderExamples()
    ensures Confirm(Product2, 900, [CreditFailure, Success]) == Chain(Some(450), [])
    ensures Confirm(Product1, 700, [CreditFailure, CreditFailure, Success]) == Chain(Some(175), [])
  {
    assert ReduceStep(900, 45, 9) == 450;
    assert ReduceStep(700, 35, 7) == 350;
    assert ReduceStep(350, 35, 7) == 175;
    assert Confirm(Product1, 175, [Success]) == Chain(Some(175), []);
    assert Retry(Product1, 350, [Success]) == Chain(Some(175), []);
    assert Confirm(Product1, 350, [CreditFailure, Success]) == Chain(Some(175), []);
  }

  /** The loop runs from 07:00 to before 18:00 on every day of the week. */
  predicate IsWorkingHour(now: nat)
  {
    !(HourOf(now) < 7 || HourOf(now) >= 18)
  }

  /** Product 1 is scheduled whenever the loop runs: its three alternatives cover every order count. */
  predicate Product1Scheduled(orderCount: nat)
  {
    orderCount == 0 || orderCount < 4 || (orderCount >= 4 && Product1Continuous > 0)
  }

  lemma Product1AlwaysScheduled(orderCount: nat)
    ensures Product1Scheduled(orderCount)
  {
  }

  /** The seconds still to wait in a cooldown, rounded up, as logged. */
  function CooldownRemainingSeconds(last: nat, now: nat): (s: int)
    requires now - last < BackorderCooldownMs
    ensures (s - 1) * 1000 < BackorderCooldownMs - (now - last) <= s * 1000
  {
    (BackorderCooldownMs - (now - last) + 999) / 1000
  }

  /** Deletion here needs only the two quantities to agree (two missing quantities agree too). */
  predicate DeletableAsWritten(row: BackorderRow)
  {
    row.orderedQty == row.backorderQty
  }

  predicate DeletesAsWritten(rows: seq<BackorderRow>, key: ProductKey)
  {
    exists i :: 0 <= i < |rows| && DeletableAsWritten(rows[i]) && RowProduct(rows[i]) == Some(key)
  }

  lemma DeletesAsWrittenSnoc(rows: seq<BackorderRow>, row: BackorderRow, key: ProductKey)
    ensures DeletesAsWritten(rows + [row], key) <==>
              DeletesAsWritten(rows, key) || (DeletableAsWritten(row) && RowProduct(row) == Some(key))
  {
    var all := rows + [row];
    if DeletesAsWritten(rows, key) {
      var i :| 0 <= i < |rows| && DeletableAsWritten(rows[i]) && RowProduct(rows[i]) == Some(key);
      assert all[i] == rows[i];
    }
    if DeletableAsWritten(row) && RowProduct(row) == Some(key) {
      assert all[|rows|] == row;
    }
    if DeletesAsWritten(all, key) {
      var i :| 0 <= i < |all| && DeletableAsWritten(all[i]) && RowProduct(all[i]) == Some(key);
      if i < |rows| {
        assert all[i] == rows[i];
      }
    }
  }

  /** The part of the automation's state an order changes: both order counts, the day's total, product 2's units, today's orders, the success flag and the shop's remaining answers. */
  datatype Tally = Tally(count1: nat, count2: nat, dailyTotal: nat, ordered2: nat,
                         ordersToday: seq<TodayEntry>, hasSuccessfulOrders: bool, responses: seq<Outcome>)

  /** The tally after an order of `q` units: the confirmation chain decides whether it went through and what it recorded. */
  function Ordered(t: Tally, key: ProductKey, q: nat, now: nat): Tally
  {
    var c := Confirm(key, q, t.responses);
    var ok := c.confirmed.Some?;
    Tally(t.count1 + (if ok && key == Product1 then 1 else 0),
          t.count2 + (if ok && key == Product2 then 1 else 0),
          t.dailyTotal + (if ok then 1 else 0),
          t.ordered2 + (if ok && key == Product2 then q else 0),
          t.ordersToday + (if ok then [TodayEntry(ProductName(key), c.confirmed.value, OrderRef(DayOf(now), t.dailyTotal + 1), now)] else []),
          t.hasSuccessfulOrders || ok,
          c.rest)
  }

  /** The quantity one product's task orders: none in a cooldown or out of stock, else the schedule's next quantity. */
  function TaskQuantity(t: Tally, key: ProductKey, lastBackorder: Option<nat>, now: nat, stockText: string): nat
  {
    var status := StockCheck(lastBackorder, now, stockText);
    if status == Some(Available) || status == Some(Limited) then
      OrderQuantity(key, status.value, if key == Product1 then t.count1 else t.count2, t.ordered2)
    else 0
  }

  /** The tally after one product's task: an order of the task's quantity when there is one, else no change. */
  function Processed(t: Tally, key: ProductKey, lastBackorder: Option<nat>, now: nat, stockText: string): Tally
  {
    var q := TaskQuantity(t, key, lastBackorder, now, stockText);
    if q > 0 then Ordered(t, key, q, now) else t
  }

  /** A task in a cooldown, or on a page that reads out of stock, changes nothing. */
  lemma NoStockNoChange(t: Tally, key: ProductKey, lastBackorder: Option<nat>, now: nat, stockText: string)
    requires InCooldown(lastBackorder, now) || Classify(stockText) == Unavailable
    ensures Processed(t, key, lastBackorder, now, stockText) == t
  {
  }

  /** A task adds at most one entry to today's orders, counts one order exactly when it adds one, and never records more units than its quantity. */
  lemma ProcessedRecordsAtMostOne(t: Tally, key: ProductKey, lastBackorder: Option<nat>, now: nat, stockText: string)
    ensures var t2 := Processed(t, key, lastBackorder, now, stockText);
            var q := TaskQuantity(t, key, lastBackorder, now, stockText);
            t2.dailyTotal - t.dailyTotal == |t2.ordersToday| - |t.ordersToday| <= 1
            && t2.ordersToday[..|t.ordersToday|] == t.ordersToday
            && (t2.dailyTotal > t.dailyTotal ==>
                  var e := t2.ordersToday[|t.ordersToday|];
                  e.product == ProductName(key) && 0 < q && e.quantity <= q
                  && e.reference == OrderRef(DayOf(now), t.dailyTotal + 1))
  {
    var q := TaskQuantity(t, key, lastBackorder, now, stockText);
    if q > 0 {
      ConfirmBound(key, q, t.responses);
      var c := Confirm(key, q, t.responses);
      if c.confirmed.Some? {
        var e := TodayEntry(ProductName(key), c.confirmed.value, OrderRef(DayOf(now), t.dailyTotal + 1), now);
        assert (t.ordersToday + [e])[..|t.ordersToday|] == t.ordersToday;
      } else {
        assert (t.ordersToday + [])[..|t.ordersToday|] == t.ordersToday;
      }
    } else {
      assert t.ordersToday[..|t.ordersToday|] == t.ordersToday;
    }
  }

  class Automation {
    var count1: nat
    var count2: nat
    var dailyTotal: nat
    var ordered2: nat
    var ordersToday: seq<TodayEntry>
    var hasSuccessfulOrders: bool
    var lastBackorder1: Option<nat>
    var lastBackorder2: Option<nat>
    /** The date in the reset file; `None` when the file is missing or unreadable. */
    var lastReset: Option<nat>
    /** The shop's remaining answers to order submissions. */
    var responses: seq<Outcome>

    constructor (resetFile: Option<nat>, shop: seq<Outcome>)
      ensures count1 == 0 && count2 == 0 && dailyTotal == 0 && ordered2 == 0
      ensures ordersToday == [] && !hasSuccessfulOrders
      ensures lastBackorder1 == None && lastBackorder2 == None
      ensures lastReset == resetFile && responses == shop
    {
      count1, count2, dailyTotal, ordered2 := 0, 0, 0, 0;
      ordersToday := [];
      hasSuccessfulOrders := false;
      lastBackorder1, lastBackorder2 := None, None;
      lastReset := resetFile;
      responses := shop;
    }

    function LastBackorder(key: ProductKey): Option<nat>
      reads this
    {
      match key
      case Product1 => lastBackorder1
      case Product2 => lastBackorder2
    }

    function OrderCountOf(key: ProductKey): nat
      reads this
    {
      match key
      case Product1 => count1
      case Product2 => count2
    }

    /** The fields an order changes, as one value. */
    function Counts(): Tally
      reads this
    {
      Tally(count1, count2, dailyTotal, ordered2, ordersToday, hasSuccessfulOrders, responses)
    }

    /** On a new day (or without a readable reset file) zero the counters and write today's date; on the same day keep everything. */
    method ResetDailyCounters(today: nat)
      modifies this
      ensures old(lastReset) == Some(today) ==>
                count1 == old(count1) && count2 == old(count2) && dailyTotal == old(dailyTotal)
                && ordered2 == old(ordered2) && ordersToday == old(ordersToday)
      ensures old(lastReset) != Some(today) ==>
                count1 == 0 && count2 == 0 && dailyTotal == 0 && ordered2 == 0 && ordersToday == []
      ensures lastReset == Some(today)
      ensures hasSuccessfulOrders == old(hasSuccessfulOrders)
      ensures lastBackorder1 == old(lastBackorder1) && lastBackorder2 == old(lastBackorder2)
      ensures responses == old(responses)
    {
      if lastReset != Some(today) {
        ResetCounters();
        lastReset := Some(today);
      }
    }

    method ResetCounters()
      modifies this
      ensures count1 == 0 && count2 == 0 && dailyTotal == 0 && ordered2 == 0 && ordersToday == []
      ensures hasSuccessfulOrders == old(hasSuccessfulOrders) && lastReset == old(lastReset)
      ensures lastBackorder1 == old(lastBackorder1) && lastBackorder2 == old(lastBackorder2)
      ensures responses == old(responses)
    {
      count1, count2, dailyTotal := 0, 0, 0;
      ordered2 := 0;
      ordersToday := [];
    }

    /** The stock check of `key`, with this object's backorder time (the same check as the order system's). */
    function CheckInventory(key: ProductKey, now: nat, stockText: string): Option<StockStatus>
      reads this
    {
      StockCheck(LastBackorder(key), now, stockText)
    }

    /** The next order quantity, from the shared schedule with this object's counters. */
    function GetOrderQuantity(key: ProductKey, status: StockStatus): nat
      reads this
    {
      OrderQuantity(key, status, OrderCountOf(key), ordered2)
    }

    /** Confirms an order of `q` units; a success records it in today's orders under reference `dailyTotal + 1`. */
    method ConfirmOrder(key: ProductKey, q: nat, now: nat) returns (ok: bool)
      modifies this
      ensures var c := Confirm(key, q, old(responses));
              ok == c.confirmed.Some? && responses == c.rest
              && ordersToday == old(ordersToday)
                   + (if ok then [TodayEntry(ProductName(key), c.confirmed.value, OrderRef(DayOf(now), old(dailyTotal) + 1), now)] else [])
              && hasSuccessfulOrders == (old(hasSuccessfulOrders) || ok)
      ensures count1 == old(count1) && count2 == old(count2) && dailyTotal == old(dailyTotal) && ordered2 == old(ordered2)
      ensures lastBackorder1 == old(lastBackorder1) && lastBackorder2 == old(lastBackorder2) && lastReset == old(lastReset)
      decreases q, 1
    {
      var reference := OrderRef(DayOf(now), dailyTotal + 1);
      var o := Answer(responses, 0);
      responses := Consume(responses, 1);
      if o == Success {
        ordersToday := ordersToday + [TodayEntry(ProductName(key), q, reference, now)];
        if !hasSuccessfulOrders {
          hasSuccessfulOrders := true;
        }
        ok := true;
      } else if o == CreditFailure {
        ok := RetryWithReducedQuantity(key, q, now);
      } else {
        ok := false;
      }
    }

    /** The retry ladder from `current`. */
    method RetryWithReducedQuantity(key: ProductKey, current: nat, now: nat) returns (ok: bool)
      modifies this
      ensures var c := Retry(key, current, old(responses));
              ok == c.confirmed.Some? && responses == c.rest
              && ordersToday == old(ordersToday)
                   + (if ok then [TodayEntry(ProductName(key), c.confirmed.value, OrderRef(DayOf(now), old(dailyTotal) + 1), now)] else [])
              && hasSuccessfulOrders == (old(hasSuccessfulOrders) || ok)
      ensures count1 == old(count1) && count2 == old(count2) && dailyTotal == old(dailyTotal) && ordered2 == old(ordered2)
      ensures lastBackorder1 == old(lastBackorder1) && lastBackorder2 == old(lastBackorder2) && lastReset == old(lastReset)
      decreases current, 0
    {
      var minimum := MinimumQuantity(key);
      var divisor := RetryDivisor(key);
      var newQuantity: nat := current;
      while newQuantity > minimum
        invariant newQuantity <= current
        invariant Retry(key, current, old(responses)) == Retry(key, newQuantity, responses)
        invariant ordersToday == old(ordersToday) && hasSuccessfulOrders == old(hasSuccessfulOrders)
        invariant count1 == old(count1) && count2 == old(count2) && dailyTotal == old(dailyTotal) && ordered2 == old(ordered2)
        invariant lastBackorder1 == old(lastBackorder1) && lastBackorder2 == old(lastBackorder2) && lastReset == old(lastReset)
        decreases newQuantity
      {
        ghost var before := responses;
        ghost var previous := newQuantity;
        newQuantity := ReduceStep(newQuantity, minimum, divisor);
        ok := ConfirmOrder(key, newQuantity, now);
        if ok {
          return;
        }
        if newQuantity == minimum {
          return;
        }
        assert Retry(key, previous, before) == Retry(key, newQuantity, responses);
      }
      ok := false;
    }

    /** Places an order of `quantity` units; a success counts one order (and, for product 2, the quantity first requested, even if a reduced one went through). */
    method PlaceOrder(key: ProductKey, quantity: nat, now: nat) returns (ok: bool)
      modifies this
      ensures quantity == 0 ==> !ok && responses == old(responses) && ordersToday == old(ordersToday)
                                && count1 == old(count1) && count2 == old(count2) && dailyTotal == old(dailyTotal)
                                && ordered2 == old(ordered2) && hasSuccessfulOrders == old(hasSuccessfulOrders)
      ensures quantity > 0 ==>
                var c := Confirm(key, quantity, old(responses));
                ok == c.confirmed.Some? && responses == c.rest
                && ordersToday == old(ordersToday)
                     + (if ok then [TodayEntry(ProductName(key), c.confirmed.value, OrderRef(DayOf(now), old(dailyTotal) + 1), now)] else [])
                && hasSuccessfulOrders == (old(hasSuccessfulOrders) || ok)
      ensures count1 == old(count1) + (if ok && key == Product1 then 1 else 0)
      ensures count2 == old(count2) + (if ok && key == Product2 then 1 else 0)
      ensures dailyTotal == old(dailyTotal) + (if ok then 1 else 0)
      ensures ordered2 == old(ordered2) + (if ok && key == Product2 then quantity else 0)
      ensures lastBackorder1 == old(lastBackorder1) && lastBackorder2 == old(lastBackorder2) && lastReset == old(lastReset)
      ensures Counts() == if quantity > 0 then Ordered(old(Counts()), key, quantity, now) else old(Counts())
    {
      if quantity == 0 {
        return false;
      }
      ok := ConfirmOrder(key, quantity, now);
      if ok {
        if key == Product1 {
          count1 := count1 + 1;
        } else {
          count2 := count2 + 1;
          ordered2 := ordered2 + quantity;
        }
        dailyTotal := dailyTotal + 1;
      }
    }

    /** Walks the backorder list: each row whose quantities agree is deleted and starts its product's cooldown. */
    method CheckBackorders(rows: seq<BackorderRow>, now: nat)
      modifies this
      ensures lastBackorder1 == if DeletesAsWritten(rows, Product1) then Some(now) else old(lastBackorder1)
      ensures lastBackorder2 == if DeletesAsWritten(rows, Product2) then Some(now) else old(lastBackorder2)
      ensures count1 == old(count1) && count2 == old(count2) && dailyTotal == old(dailyTotal) && ordered2 == old(ordered2)
      ensures ordersToday == old(ordersToday) && hasSuccessfulOrders == old(hasSuccessfulOrders)
      ensures lastReset == old(lastReset) && responses == old(responses)
    {
      for i := 0 to |rows|
        invariant lastBackorder1 == if DeletesAsWritten(rows[..i], Product1) then Some(now) else old(lastBackorder1)
        invariant lastBackorder2 == if DeletesAsWritten(rows[..i], Product2) then Some(now) else old(lastBackorder2)
        invariant count1 == old(count1) && count2 == old(count2) && dailyTotal == old(dailyTotal) && ordered2 == old(ordered2)
        invariant ordersToday == old(ordersToday) && hasSuccessfulOrders == old(hasSuccessfulOrders)
        invariant lastReset == old(lastReset) && responses == old(responses)
      {
        var row := rows[i];
        assert rows[..i + 1] == rows[..i] + [row];
        if DeletableAsWritten(row) {
          var product := RowProduct(row);
          if product == Some(Product1) {
            lastBackorder1 := Some(now);
          } else if product == Some(Product2) {
            lastBackorder2 := Some(now);
          }
        }
        DeletesAsWrittenSnoc(rows[..i], row, Product1);
        DeletesAsWrittenSnoc(rows[..i], row, Product2);
      }
      assert rows[..|rows|] == rows;
    }

    /** Checks a product and orders the scheduled quantity when it is in stock. */
    method ProcessProduct(key: ProductKey, now: nat, stockText: string)
      modifies this
      ensures Counts() == Processed(old(Counts()), key, old(LastBackorder(key)), now, stockText)
      ensures InCooldown(old(LastBackorder(key)), now) || Classify(stockText) == Unavailable ==> Counts() == old(Counts())
      ensures key == Product1 ==> count2 == old(count2) && ordered2 == old(ordered2)
      ensures key == Product2 ==> count1 == old(count1)
      ensures lastBackorder1 == old(lastBackorder1) && lastBackorder2 == old(lastBackorder2) && lastReset == old(lastReset)
    {
      var status := CheckInventory(key, now, stockText);
      if status == Some(Available) || status == Some(Limited) {
        var quantity := GetOrderQuantity(key, status.value);
        if quantity > 0 {
          var _ := PlaceOrder(key, quantity, now);
        }
      }
    }

    /** One cycle of the loop: outside 07:00-18:00 nothing happens; else product 1 while it is scheduled, then product 2 while its daily units are below the limit, then the backorders (skipped when neither task ran). */
    method RunCycle(now: nat, stockText1: string, stockText2: string, rows: seq<BackorderRow>) returns (worked: bool)
      modifies this
      ensures worked == IsWorkingHour(now)
      ensures !worked ==> Counts() == old(Counts()) && lastReset == old(lastReset)
                          && lastBackorder1 == old(lastBackorder1) && lastBackorder2 == old(lastBackorder2)
      ensures worked ==>
                var run1 := Product1Scheduled(old(count1));
                var run2 := old(ordered2) < Product2DailyLimit;
                var t1 := if run1 then Processed(old(Counts()), Product1, old(lastBackorder1), now, stockText1) else old(Counts());
                Counts() == (if run2 then Processed(t1, Product2, old(lastBackorder2), now, stockText2) else t1)
                && lastReset == old(lastReset)
                && lastBackorder1 == (if (run1 || run2) && DeletesAsWritten(rows, Product1) then Some(now) else old(lastBackorder1))
                && lastBackorder2 == (if (run1 || run2) && DeletesAsWritten(rows, Product2) then Some(now) else old(lastBackorder2))
      ensures worked && old(ordered2) >= Product2DailyLimit ==> count2 == old(count2) && ordered2 == old(ordered2)
    {
      worked := IsWorkingHour(now);
      if !worked {
        return;
      }
      var runProduct1 := Product1Scheduled(count1);
      var runProduct2 := ordered2 < Product2DailyLimit;
      if runProduct1 {
        ProcessProduct(Product1, now, stockText1);
      }
      if runProduct2 {
        ProcessProduct(Product2, now, stockText2);
      }
      if !runProduct1 && !runProduct2 {
        return;
      }
      CheckBackorders(rows, now);
    }
  }
}
