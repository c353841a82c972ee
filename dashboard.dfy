/**
 * The status dashboard of mepiform-monitor-dashboard.js: today's orders and
 * the statistics derived from them, per-product status cards, and a list of
 * alerts that a dismiss request filters by id.
 */
module MonitorDashboard {
  import opened Text
  import opened Wrappers
  import opened MepiformOrderSystem

  /** One of today's orders; `id` is set only on an order added live (`Date.now()`). */
  datatype DashOrder = DashOrder(product: string, quantity: nat, reference: string, id: Option<nat>, time: nat)

  /** An order as `addOrder` receives it. */
  datatype NewOrder = NewOrder(product: string, quantity: nat, reference: string)

  datatype Alert = Alert(id: nat, kind: string, message: string, timestamp: nat, persistent: bool)

  /** The `alertId` of a dismiss request: a number, or a string (what the bundled page sends). */
  datatype AlertKey = IdNumber(n: int) | IdString(s: string)

  /** A product card; product 1 has no `dailyTotal`, and `stockStatus` appears once one is reported. */
  datatype ProductStatus = ProductStatus(
    status: string,
    lastCheck: Option<nat>,
    dailyOrders: nat,
    dailyTotal: Option<nat>,
    stockStatus: Option<string>)

  datatype Stats = Stats(totalOrdersToday: nat, totalUnitsToday: nat, successRate: nat)

  const InitialProducts: map<string, ProductStatus> := map[
    "product1" := ProductStatus("unknown", None, 0, None, None),
    "product2" := ProductStatus("unknown", None, 0, Some(0), None)
  ]

  /** `orders.reduce((sum, order) => sum + order.quantity, 0)`. */
  function Units(orders: seq<DashOrder>): nat
  {
    if |orders| == 0 then 0 else Units(orders[..|orders| - 1]) + orders[|orders| - 1].quantity
  }

  /** The units of two lists of orders together are the units of each, added. */
  lemma {:induction false} UnitsConcat(a: seq<DashOrder>, b: seq<DashOrder>)
    ensures Units(a + b) == Units(a) + Units(b)
    decreases |b|
  {
    if |b| > 0 {
      UnitsConcat(a, b[..|b| - 1]);
      assert (a + b)[..|a + b| - 1] == a + b[..|b| - 1];
    } else {
      assert a + b == a;
    }
  }

  /** `a.id !== alertId`, negated: a number key equal to the alert's id. */
  predicate SameId(a: Alert, key: AlertKey)
  {
    key.IdNumber? && key.n == a.id
  }

  /** `alerts.filter(a => a.id !== alertId)`. */
  function WithoutAlert(alerts: seq<Alert>, key: AlertKey): (r: seq<Alert>)
    ensures |r| <= |alerts|
  {
    if |alerts| == 0 then []
    else (if SameId(alerts[0], key) then [] else [alerts[0]]) + WithoutAlert(alerts[1..], key)
  }

  /** Dismissal keeps order: filtering a joined list joins the filtered parts. */
  lemma {:induction false} WithoutAlertConcat(a: seq<Alert>, b: seq<Alert>, key: AlertKey)
    ensures WithoutAlert(a + b, key) == WithoutAlert(a, key) + WithoutAlert(b, key)
    decreases |a|
  {
    if |a| > 0 {
      var head := if SameId(a[0], key) then [] else [a[0]];
      WithoutAlertConcat(a[1..], b, key);
      assert (a + b)[0] == a[0] && (a + b)[1..] == a[1..] + b;
      calc {
        WithoutAlert(a + b, key);
        head + WithoutAlert(a[1..] + b, key);
        head + (WithoutAlert(a[1..], key) + WithoutAlert(b, key));
        (head + WithoutAlert(a[1..], key)) + WithoutAlert(b, key);
      }
    } else {
      assert a + b == b;
    }
  }

  /** Dismissal keeps exactly the alerts whose id differs from the key. */
  lemma {:induction false} WithoutAlertMembers(alerts: seq<Alert>, key: AlertKey)
    ensures forall a :: a in WithoutAlert(alerts, key) <==> a in alerts && !SameId(a, key)
    decreases |alerts|
  {
    if |alerts| > 0 {
      WithoutAlertMembers(alerts[1..], key);
      assert alerts == [alerts[0]] + alerts[1..];
    }
  }

  /** An alert list with no alert of the given id is left as it is. */
  lemma {:induction false} WithoutAbsentAlert(alerts: seq<Alert>, key: AlertKey)
    requires forall i :: 0 <= i < |alerts| ==> !SameId(alerts[i], key)
    ensures WithoutAlert(alerts, key) == alerts
    decreases |alerts|
  {
    if |alerts| > 0 {
      WithoutAbsentAlert(alerts[1..], key);
    }
  }

  /** The bundled page sends alert ids as strings, so its dismissals never remove an alert. */
  lemma PageDismissalRemovesNothing(alerts: seq<Alert>, id: string)
    ensures WithoutAlert(alerts, IdString(id)) == alerts
  {
    WithoutAbsentAlert(alerts, IdString(id));
  }

  /** The success alert of a new order: `Order placed: <product> x <quantity>`. */
  function OrderMessage(order: NewOrder): string
  {
    "Order placed: " + order.product + " x " + NatToString(order.quantity)
  }

  /** The stored order log as the dashboard lists it. */
  function LoadedOrders(entries: seq<TodayEntry>): (r: seq<DashOrder>)
    ensures |r| == |entries|
    ensures forall i :: 0 <= i < |r| ==> r[i].quantity == entries[i].quantity && r[i].id == None
  {
    seq(|entries|, i requires 0 <= i < |entries| =>
      DashOrder(entries[i].product, entries[i].quantity, RenderReference(entries[i].reference), None, entries[i].time))
  }

  class Dashboard {
    var systemStatus: string
    var lastUpdate: nat
    var todaysOrders: seq<DashOrder>
    var productStatus: map<string, ProductStatus>
    var alerts: seq<Alert>
    var stats: Stats

    /** The statistics agree with today's orders. */
    predicate StatsCurrent()
      reads this
    {
      stats.totalOrdersToday == |todaysOrders| && stats.totalUnitsToday == Units(todaysOrders)
    }

    constructor (now: nat)
      ensures systemStatus == "idle" && lastUpdate == now
      ensures todaysOrders == [] && alerts == [] && productStatus == InitialProducts
      ensures stats == Stats(0, 0, 100) && StatsCurrent()
    {
      systemStatus := "idle";
      lastUpdate := now;
      todaysOrders := [];
      productStatus := InitialProducts;
      alerts := [];
      stats := Stats(0, 0, 100);
    }

    /** `updateStats`: recount the orders and units; the success rate is never touched. */
    method UpdateStats()
      modifies this`stats
      ensures StatsCurrent() && stats.successRate == old(stats.successRate)
    {
      stats := stats.(totalOrdersToday := |todaysOrders|, totalUnitsToday := Units(todaysOrders));
    }

    method UpdateSystemStatus(status: string, now: nat)
      modifies this`systemStatus, this`lastUpdate
      ensures systemStatus == status && lastUpdate == now
    {
      systemStatus := status;
      lastUpdate := now;
    }

    /**
     * `updateProductStatus`: a card that does not exist throws (reported as
     * `false`, nothing changed); otherwise the status and check time are set,
     * and the stock text only when a non-empty one is given.
     */
    method UpdateProductStatus(key: string, status: string, stockStatus: Option<string>, now: nat) returns (updated: bool)
      modifies this`productStatus
      ensures updated <==> key in old(productStatus)
      ensures !updated ==> productStatus == old(productStatus)
      ensures updated ==>
                var card := old(productStatus)[key];
                productStatus == old(productStatus)[key := card.(
                  status := status,
                  lastCheck := Some(now),
                  stockStatus := if stockStatus.Some? && stockStatus.value != "" then stockStatus else card.stockStatus)]
    {
      if key !in productStatus {
        return false;
      }
      var card := productStatus[key].(status := status, lastCheck := Some(now));
      if stockStatus.Some? && stockStatus.value != "" {
        card := card.(stockStatus := stockStatus);
      }
      productStatus := productStatus[key := card];
      updated := true;
    }

    /** `showNotification`: one alert is appended, its id the current time. */
    method ShowNotification(kind: string, message: string, persistent: bool, now: nat)
      modifies this`alerts
      ensures alerts == old(alerts) + [Alert(now, kind, message, now, persistent)]
    {
      alerts := alerts + [Alert(now, kind, message, now, persistent)];
    }

    /** `addOrder`: the order is appended with an id, the statistics follow, and one success alert is raised. */
    method AddOrder(order: NewOrder, now: nat)
      requires StatsCurrent()
      modifies this`todaysOrders, this`stats, this`alerts
      ensures todaysOrders == old(todaysOrders) + [DashOrder(order.product, order.quantity, order.reference, Some(now), now)]
      ensures StatsCurrent() && stats.successRate == old(stats.successRate)
      ensures stats.totalOrdersToday == old(stats.totalOrdersToday) + 1
      ensures stats.totalUnitsToday == old(stats.totalUnitsToday) + order.quantity
      ensures alerts == old(alerts) + [Alert(now, "success", OrderMessage(order), now, false)]
    {
      var added := DashOrder(order.product, order.quantity, order.reference, Some(now), now);
      UnitsConcat(todaysOrders, [added]);
      todaysOrders := todaysOrders + [added];
      UpdateStats();
      ShowNotification("success", OrderMessage(order), false, now);
    }

    /** The dismiss endpoint: keep exactly the alerts whose id differs from `alertId`, in order. */
    method Dismiss(key: AlertKey)
      modifies this`alerts
      ensures alerts == WithoutAlert(old(alerts), key)
    {
      alerts := WithoutAlert(alerts, key);
    }

    /**
     * `loadDailyData`: a missing or unreadable file changes nothing; a stored
     * one replaces the order log and the counts, missing fields reading as 0
     * or empty, whatever day it was saved on.
     */
    method LoadDailyData(file: StoredFile)
      requires "product1" in productStatus && "product2" in productStatus
      modifies this`todaysOrders, this`productStatus, this`stats
      ensures !file.Stored? ==> todaysOrders == old(todaysOrders) && productStatus == old(productStatus) && stats == old(stats)
      ensures file.Stored? ==>
                var s := file.state;
                var p1 := old(productStatus)["product1"];
                var p2 := old(productStatus)["product2"];
                todaysOrders == LoadedOrders(s.todaysOrders.GetOr([]))
                && productStatus == old(productStatus)[
                     "product1" := p1.(dailyOrders := s.product1OrderCount.GetOr(0))][
                     "product2" := p2.(dailyOrders := s.product2OrderCount.GetOr(0), dailyTotal := Some(s.product2DailyOrdered.GetOr(0)))]
                && StatsCurrent() && stats.successRate == old(stats.successRate)
    {
      if !file.Stored? {
        return;
      }
      var s := file.state;
      todaysOrders := LoadedOrders(s.todaysOrders.GetOr([]));
      var p1 := productStatus["product1"];
      productStatus := productStatus["product1" := p1.(dailyOrders := s.product1OrderCount.GetOr(0))];
      var p2 := productStatus["product2"];
      productStatus := productStatus["product2" := p2.(dailyOrders := s.product2OrderCount.GetOr(0),
                                                       dailyTotal := Some(s.product2DailyOrdered.GetOr(0)))];
      UpdateStats();
    }
  }
}
