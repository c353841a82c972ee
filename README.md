# Mepiform stock-driven ordering, modelled in Dafny

The system watches the supplier's product pages for Mepiform dressings and
places orders when stock appears. Several generations of the same idea live
side by side, and each is modelled in a module of its own:

- **MepiformOrderSystem** (`mepiform-order-system.js`): classifies the stock
  text, chooses the quantity from a per-product daily schedule (product 2 is
  capped at 1620 units a day), places the order and, on a credit refusal,
  walks a reduction ladder down to a minimum. It keeps the daily counters,
  today's orders and the order history, writes references `YYYYMMDD-NN`
  and saves and reloads the daily state.
- **MepiformAutomation** (`mepiform-automation.js`): the same schedule driven
  by an hourly loop; a confirmation that is refused for credit starts a
  retry ladder whose rungs may start ladders of their own; deleted
  backorders start a three-minute cooldown.
- **CompleteOrder** (`complete-order-automation.js`): the budget strategy
  (700 units at once, else a split, else a fallback quantity), the split
  loop that stops at the first failure, and the counter-based references.
- **MepiformMonitor** and **StartMepiformMonitoring** (`mepiform-monitor.js`,
  `start-mepiform-monitoring.js`): the keyword classifiers, the quantity
  rules against `MAX_ORDER_AMOUNT`, and ordering on the rising edge of
  availability.
- **HerokuServer** and **Scheduler** (`mepiform-heroku-server.js`,
  `mepiform-scheduler.js`): work hours, the 2024 holiday list, the next
  working 07:00, starting and stopping the automation process, and the
  restart rule after an unexpected exit. **Holidays** holds the list and the
  next-start search both use.
- **Configuration** (`src/config/config.js`): the product list and the
  settings, with validation and a masked export.
- **OrderAutomator**, **MonitoringService**, **MonitorProducts**
  (`src/orders/orderAutomator.js`, `src/services/monitoringService.js`,
  `monitor-products.js`): the three "should we order" rule chains, the rate
  limit and the daily counters.
- **ProductScraper**, **NotificationService**, **Logger**,
  **MonitorDashboard**: the stock check and its error entries, the
  e-mail/SMS fan-out with `htmlToText` and SMS truncation, the bounded
  recent-log buffer, and the dashboard's stats, alerts and orders.

Shared helper modules: **Text** (substring search, lower case, trim, decimal
and zero-padded numerals), **Calendar** (epoch milliseconds to civil date,
weekday, hour and ISO date text, with the round trip proved), **Prices**
(`parseFloat` and the price regexes the scripts use), **Page** (the shop's
answers to submitted orders), **Wrappers** (`Option`, `Result`).

Time enters every operation as a parameter in epoch milliseconds and is read
as UTC. The browser is an oracle: each submitted order is answered from a
given sequence of outcomes (success, credit refusal, other failure), and a
page check is a given result. Environment variables arrive already read,
as `Option` values where the code distinguishes "unset".

## Model

| member | source | states |
|---|---|---|
| MepiformOrderSystem.RetryDivisor | mepiform-order-system.js:439 | the pack size the ladder rounds to is positive (7 for product 1, 9 for product 2) |
| MepiformOrderSystem.Classify | mepiform-order-system.js:321-329 | the status is `limited` exactly when the text contains "Finns i lager, begränsat antal", `available` exactly when it equals "Finns i lager", otherwise `unavailable` |
| MepiformOrderSystem.OrderQuantity | mepiform-order-system.js:332-366 | limited stock gives the fixed limited quantity; product 1 follows 700/350/140/70 and then 70; product 2 is positive iff the daily units are under 1620 and an entry is left, never overshoots 1620 and is the scheduled entry unless clamped to the remainder |
| MepiformOrderSystem.Product1Schedule | mepiform-order-system.js:340-348 | orders 1 to 4 of the day are 700, 350, 140, 70 units and every later order is 70 |
| MepiformOrderSystem.Product2Schedule | mepiform-order-system.js:349-365 | 900, 450, 270 use up exactly the 1620 daily units and a fourth order is 0 |
| MepiformOrderSystem.LimitedStockIgnoresDailyLimit | mepiform-order-system.js:335-338 | with product 2's daily units used up, limited stock still orders 45 units |
| MepiformOrderSystem.ProductIsMultiple | mepiform-order-system.js:444-446 | `k * d` is a whole number of packs of `d` |
| MepiformOrderSystem.RoundDown | mepiform-order-system.js:444-446 | `floor(h / d) * d` is at most `h` and a multiple of `d` |
| MepiformOrderSystem.ReduceStep | mepiform-order-system.js:443-450 | one ladder step is at least the minimum, is the minimum or a multiple of the divisor at most half the quantity, and is strictly smaller than a quantity above the minimum |
| MepiformOrderSystem.Ladder | mepiform-order-system.js:442-484 | the ladder is empty exactly when the refused quantity is already at or below the minimum |
| MepiformOrderSystem.LadderShape | mepiform-order-system.js:442-484 | every rung is between the minimum and the refused quantity, the rungs strictly decrease, each is a multiple of the divisor or the minimum, and the last rung is the minimum |
| MepiformOrderSystem.Product1Ladder | mepiform-order-system.js:437-484 | product 1's ladder from 700 is 350, 175, 84, 42, 35 |
| MepiformOrderSystem.Product2Ladder | mepiform-order-system.js:437-484 | product 2's ladder from 900 is 450, 225, 108, 54, 45 |
| MepiformOrderSystem.FirstSuccessFrom | mepiform-order-system.js:462-482 | the rung that goes through is the first success among the shop's answers, every earlier answer being a refusal |
| MepiformOrderSystem.PlacedWithinRequest | mepiform-order-system.js:368-434 | a placed order never exceeds the request; a reduced one is a rung of the ladder, at least the minimum and below the request |
| MepiformOrderSystem.Product2OrderKeepsDailyLimit | mepiform-order-system.js:349-365 | a product-2 order sized by the schedule keeps the day's units within 1620 whether it goes through at once or reduced (also lines 407-409 and 469-472 of the same file) |
| MepiformOrderSystem.AttemptsUsed | mepiform-order-system.js:425-481 | every submission uses one shop answer, and a refusal that is not a credit refusal ends the order after the first one |
| MepiformOrderSystem.ReloadAfterSave | mepiform-order-system.js:79-120 | reloading the saved daily state on the same day restores every counter and today's orders; on another day nothing is restored |
| MepiformOrderSystem.RenderedReferencesDiffer | mepiform-order-system.js:517-522 | two references of one day with different order numbers below 100 are different strings |
| MepiformOrderSystem.RandomInterval | mepiform-order-system.js:542-544 | the pause between cycles is at least 8000 and below 12000 ms |
| MepiformOrderSystem.WorkingTimeMeansWeekdayDaytime | mepiform-order-system.js:554 | the loop works exactly on weekdays from 07:00 to before 18:00 |
| MepiformOrderSystem.DeletesBackorderOfSnoc | mepiform-order-system.js:495-514 | a list with one more row deletes a backorder of a product iff the shorter list does or the new row is deletable and names the product |
| MepiformOrderSystem.OrderSystem.constructor | mepiform-order-system.js:7-51 | fresh counters, empty histories and no backorder time |
| MepiformOrderSystem.StockCheck | mepiform-order-system.js:303-329 | `null` exactly during the 180 s after a backorder deletion, else the classified stock text; the automation loop uses the same check (also `mepiform-automation.js:162-186`) |
| MepiformOrderSystem.OrderSystem.ResetDailyCounters | mepiform-order-system.js:79-99 | a state file of today restores the counters (missing fields as 0 or []); otherwise the counters are reset and today's fresh state is saved |
| MepiformOrderSystem.OrderSystem.ResetAllCounters | mepiform-order-system.js:102-109 | both order counts, product 2's units and today's orders are zeroed and the success alert re-armed; nothing else changes |
| MepiformOrderSystem.OrderSystem.GetNextBusinessDay | mepiform-order-system.js:524-533 | the delivery date is the ISO date of the first weekday after today |
| MepiformOrderSystem.OrderSystem.Submit | mepiform-order-system.js:392-398 | a submission takes the shop's next answer |
| MepiformOrderSystem.OrderSystem.RetryWithReducedQuantity | mepiform-order-system.js:437-485 | the result and the counters are those of the first accepted rung of the ladder; only the counters change, by one order (and the rung's units for product 2) |
| MepiformOrderSystem.OrderSystem.PlaceOrder | mepiform-order-system.js:368-434 | a first-time success counts one order, appends one history and one today's entry with reference `today-(n+1)`, saves the state and sets the alert flag; a credit refusal runs the ladder, which counts what it placed but appends nothing; any other refusal changes nothing |
| MepiformOrderSystem.OrderSystem.CheckAndDeleteBackorders | mepiform-order-system.js:487-515 | a product's cooldown starts now iff some row with equal, non-empty quantities names it; nothing else changes |
| MepiformOrderSystem.OrderSystem.RunCycle | mepiform-order-system.js:546-585 | a cycle works exactly in working time; outside it no field changes; in working time the counters, both histories, the alert flag, the state file and the shop answers are those of `CycleStep` for product 1 and then for product 2 (an order of `CycleQuantity` units placed as `PlaceOrder` places it), and each cooldown restarts exactly when its product's backorder is deleted; a product in cooldown or out of stock gets no order |
| MepiformOrderSystem.OrderStepSavesCounters | mepiform-order-system.js:398-424 | after a first-time success the state file reloads on the same day as exactly the new counters; a reduced or failed order leaves the file and both histories as they were |
| MepiformOrderSystem.CycleQuantity | mepiform-order-system.js:560-574 | a product not seen in stock (unknown, in cooldown or unavailable) gets 0 units; limited stock gets the fixed limited quantity and available stock the schedule's quantity for the day's count |
| MepiformAutomation.ConfirmBound | mepiform-automation.js:243-316 | a confirmation confirms at most the quantity asked for, and a reduced confirmation is at least the minimum, however the ladders nest |
| MepiformAutomation.RetryBound | mepiform-automation.js:286-316 | whatever the ladder from a quantity confirms lies between the minimum and that quantity (exclusive) |
| MepiformAutomation.ConfirmConsumes | mepiform-automation.js:243-284 | a confirmation uses at least one answer of the shop when there is one and never more than there are |
| MepiformAutomation.RetryConsumes | mepiform-automation.js:286-316 | a ladder never uses more answers than there are |
| MepiformAutomation.NestedLadderExamples | mepiform-automation.js:276-304 | a refusal of 900 then a success confirms 450; refusals of 700 and of 350 start a second ladder whose first rung 175 goes through |
| MepiformAutomation.Product1AlwaysScheduled | mepiform-automation.js:380-383 | the product-1 scheduling test holds for every order count |
| MepiformAutomation.CooldownRemainingSeconds | mepiform-automation.js:170-172 | the logged seconds are the remaining cooldown rounded up |
| MepiformAutomation.DeletesAsWrittenSnoc | mepiform-automation.js:324-341 | a list with one more row deletes a backorder of a product iff the shorter list does or the new row has equal quantities and names the product |
| MepiformAutomation.Automation.constructor | mepiform-automation.js:8-48 | zero counters, no orders today, no successful order, no backorder time |
| MepiformAutomation.Automation.ResetDailyCounters | mepiform-automation.js:74-90 | a reset file of today keeps every counter; any other (or no) file zeroes them and records today |
| MepiformAutomation.Automation.ResetCounters | mepiform-automation.js:92-101 | the three order counts, product 2's units and today's orders are zeroed; nothing else changes |
| MepiformAutomation.Automation.ConfirmOrder | mepiform-automation.js:243-284 | the result and the answers used are those of the confirmation chain; a success appends one today's entry with reference `today-(dailyTotal+1)` and sets the success flag; the counters do not change |
| MepiformAutomation.Automation.RetryWithReducedQuantity | mepiform-automation.js:286-316 | the result and the answers used are those of the ladder chain; a success appends one today's entry; the counters do not change |
| MepiformAutomation.Automation.PlaceOrder | mepiform-automation.js:217-241 | quantity 0 changes nothing; otherwise a success counts one order and, for product 2, adds the quantity first requested to the day's units |
| MepiformAutomation.Automation.CheckBackorders | mepiform-automation.js:318-344 | a product's cooldown starts now iff some row with equal quantities (empty ones included) names it; nothing else changes |
| MepiformAutomation.Automation.ProcessProduct | mepiform-automation.js:406-416 | the counters, today's orders, the success flag and the shop answers become `Processed` of the old ones: outside a cooldown and with stock available or limited, an order of the scheduled quantity confirmed as `Confirm` decides; otherwise nothing changes; backorder times and the reset date are kept |
| MepiformAutomation.NoStockNoChange | mepiform-automation.js:406-416 | a product task in a cooldown or on an out-of-stock page changes nothing |
| MepiformAutomation.ProcessedRecordsAtMostOne | mepiform-automation.js:217-262 | a product task adds at most one entry to today's orders, counts one order exactly when it does, and the entry is the product's, numbered one past the day's total, with no more units than the scheduled quantity |
| MepiformAutomation.Automation.RunCycle | mepiform-automation.js:365-404 | a cycle works exactly from 07:00 to before 18:00, on every day of the week, and outside those hours no field changes; in them product 1 is processed when scheduled, then product 2 exactly when its units were below 1620 before the cycle, on the state product 1 left, and each cooldown restarts exactly when a row of its product has agreeing quantities, the backorder walk being skipped when neither task ran |
| CompleteOrder.MaxOrderCost | complete-order-automation.js:227 | the largest single-order cost of a split bounds the cost of each of its orders |
| CompleteOrder.FirstFittingSplit | complete-order-automation.js:225-237 | the split chosen is a listed split whose total and largest order fit the budget; there is none exactly when no listed split fits |
| CompleteOrder.SplitCostIsSumTimesPrice | complete-order-automation.js:226 | a split's total cost is the price times its unit count |
| CompleteOrder.SplitsAddUpTo700 | complete-order-automation.js:215-222 | every listed split adds up to 700 units |
| CompleteOrder.NoSplitFitsOver700 | complete-order-automation.js:206-237 | when 700 units at once are over budget, no listed split fits either |
| CompleteOrder.FallbackBelow700 | complete-order-automation.js:240-249 | when 700 units are over budget, `floor(max / price)` units fit the budget and are fewer than 700 |
| CompleteOrder.DetermineOrderStrategy | complete-order-automation.js:194-258 | the strategy is always one single order: 50 units for an unreadable price, 350 for a zero price, 700 exactly when a positive price times 700 fits the budget, and otherwise `floor(max / price)` units when that is at least 100, else 50; a positive price never orders more than 700 units, and the order fits the budget unless it is the 50-unit fallback |
| CompleteOrder.StrategyIsAlwaysSingle | complete-order-automation.js:214-237 | the split branch is never taken, for any price and budget |
| CompleteOrder.AvailableIffNoSlut | complete-order-automation.js:89-96 | the status text counts as available iff it contains an available word or does not contain "slut" (the "tillfälligt slut" test adds nothing) |
| CompleteOrder.AvailabilityExamples | complete-order-automation.js:89-96 | empty text and "tillfälligt slut i lager" count as available, "slut" does not |
| CompleteOrder.RenderedCounterRefsDiffer | complete-order-automation.js:53-60 | two references of one day with different counters below 1000 are different strings |
| CompleteOrder.RunOrdersAt | complete-order-automation.js:152-171 | one step of the split loop: place the next order, then go on only after a success |
| CompleteOrder.RunOrdersShape | complete-order-automation.js:152-171 | the orders are placed in list order with consecutive counters, every result but the last succeeded, and a run shorter than the list ended with a failure |
| CompleteOrder.TotalIsPrefixSum | complete-order-automation.js:174-175 | the units ordered are the sum of the leading orders that went through |
| CompleteOrder.CompleteOrderAutomation.constructor | complete-order-automation.js:7-25 | the counter starts at 1, no status has been seen and monitoring is off |
| CompleteOrder.CompleteOrderAutomation.GenerateOrderReference | complete-order-automation.js:53-60 | the reference carries today and the counter, which goes up by one on every call |
| CompleteOrder.CompleteOrderAutomation.PlaceCompleteOrder | complete-order-automation.js:261-336 | the reference is drawn first, so every order, failed or not, uses one counter value; the result is the shop's answer |
| CompleteOrder.CompleteOrderAutomation.HandleStockAvailable | complete-order-automation.js:119-192 | without auto-ordering nothing is ordered; otherwise the strategy's orders are placed in turn until the first failure |
| CompleteOrder.CompleteOrderAutomation.PlaceSplitOrders | complete-order-automation.js:151-171 | the loop's results are the run of the orders, and it uses one counter value and one answer per result |
| CompleteOrder.CompleteOrderAutomation.CheckMepiformAvailability | complete-order-automation.js:75-116 | a thrown check returns `null` and changes nothing; otherwise the status is recorded, and only a change from out of stock to available runs the ordering path |
| CompleteOrder.CompleteOrderAutomation.StartMonitoring | complete-order-automation.js:712-742 | a start while running is refused and changes nothing; otherwise monitoring is on and the first check runs at once: a thrown check records nothing, a completed one records its availability, and only a change from out of stock to available with auto-ordering on places the strategy's orders, one counter value and one answer per order |
| CompleteOrder.CompleteOrderAutomation.StopMonitoring | complete-order-automation.js:744-758 | afterwards monitoring is off |
| Configuration.EnvText | src/config/config.js:8-10 | an environment text setting is the variable's value when it is set and non-empty, and otherwise the fallback |
| Configuration.EnvNumber | src/config/config.js:25-26 | a numeric setting is the parsed variable unless it is missing or reads as 0 or NaN, in which case it is the fallback |
| Configuration.InitialSettings | src/config/config.js:5-64 | a fresh configuration has no products, active hours from `ACTIVE_START_HOUR` (default 7) to `ACTIVE_END_HOUR` (default 19) and check intervals of 5 and 30 minutes |
| Configuration.FirstMissing | src/config/config.js:94-99 | no field is missing exactly when `name`, `url` and `stockSelector` are all truthy; otherwise the first falsy one of them, in that order, is reported |
| Configuration.NewProduct | src/config/config.js:101-110 | the added product keeps every field it was given and gains `id`, `addedAt` and `enabled: true` only where it had none; its `maxPrice` is its own (the configured default it falls back to does not exist) |
| Configuration.FindIndexFrom | src/config/config.js:118 | the search returns the first product at or after the start whose id matches, or none when no later product matches |
| Configuration.FindIndex | src/config/config.js:118 | `findIndex` by id returns the first matching product, or none exactly when no product has the id |
| Configuration.RemoveUndoesAdd | src/config/config.js:112-120 | removing a freshly added product whose id was new finds it last and leaves the list as it was before the add |
| Configuration.RemoveKeepsOthers | src/config/config.js:118-120 | removal drops exactly the matched product and keeps the others in order |
| Configuration.Config.constructor | src/config/config.js:4-64 | the configuration starts as the initial settings read from the environment |
| Configuration.Config.UpdateConfig | src/config/config.js:66-75 | each section given in the update replaces the current one and every other section is kept; the call reports success |
| Configuration.Config.AddProduct | src/config/config.js:93-115 | a product missing a required field is refused with "Missing required field: <name>" and nothing changes; otherwise the completed product is appended and returned |
| Configuration.Config.RemoveProduct | src/config/config.js:117-125 | the first product with the id is removed and returned, the rest kept in order; an unknown id gives "Product not found" and no change |
| Configuration.Config.UpdateProduct | src/config/config.js:127-136 | the first product with the id gets the updates merged over its fields plus an `updatedAt` stamp, in place; an unknown id gives "Product not found" and no change |
| Configuration.Config.GetCheckInterval | src/config/config.js:142-160 | the interval is the short one inside the active hours on weekdays and the long one otherwise, in particular every weekend |
| Configuration.Config.ValidateConfiguration | src/config/config.js:162-183 | the configuration is valid exactly when no error is found; each of the three errors is reported exactly when its condition holds, in the order the checks run |
| Configuration.Config.ExportConfig | src/config/config.js:185-194 | the exported settings equal the live ones except that the password is masked as `***HIDDEN***` |
| MonitorDashboard.UnitsConcat | mepiform-monitor-dashboard.js:117 | the unit total of a joined order list is the sum of the totals of its parts |
| MonitorDashboard.WithoutAlert | mepiform-monitor-dashboard.js:73 | dismissal never lengthens the alert list |
| MonitorDashboard.WithoutAlertConcat | mepiform-monitor-dashboard.js:73 | dismissal works alert by alert and keeps their order: on a joined list it joins the parts' results |
| MonitorDashboard.WithoutAlertMembers | mepiform-monitor-dashboard.js:73 | an alert survives dismissal exactly when it was listed and its id is not the requested one |
| MonitorDashboard.WithoutAbsentAlert | mepiform-monitor-dashboard.js:73 | a dismissal whose id matches no alert leaves the list unchanged |
| MonitorDashboard.PageDismissalRemovesNothing | mepiform-monitor-dashboard.js:531-536 | the page sends the alert id as a string, which never strictly equals a numeric id, so its dismissals remove nothing (also lines 73 and 506 of the same file) |
| MonitorDashboard.LoadedOrders | mepiform-monitor-dashboard.js:103 | the stored order log is listed entry for entry with the same quantities and no live id |
| MonitorDashboard.Dashboard.constructor | mepiform-monitor-dashboard.js:14-28 | the dashboard starts idle with no orders or alerts, both product cards unknown, and statistics of 0 orders, 0 units and a 100% success rate |
| MonitorDashboard.Dashboard.UpdateStats | mepiform-monitor-dashboard.js:114-118 | the order and unit counts agree with today's orders afterwards and the success rate is unchanged |
| MonitorDashboard.Dashboard.UpdateSystemStatus | mepiform-monitor-dashboard.js:135-139 | the status and the update time are set and nothing else changes |
| MonitorDashboard.Dashboard.UpdateProductStatus | mepiform-monitor-dashboard.js:141-148 | an unknown card is refused with no change; otherwise exactly that card gets the status and check time, and the stock text only when a non-empty one is given |
| MonitorDashboard.Dashboard.ShowNotification | mepiform-monitor-dashboard.js:162-172 | exactly one alert, stamped with the current time as its id, is appended |
| MonitorDashboard.Dashboard.AddOrder | mepiform-monitor-dashboard.js:150-160 | the order is appended with an id, the order count rises by one and the unit count by its quantity, and one "Order placed: <product> x <quantity>" success alert follows |
| MonitorDashboard.Dashboard.Dismiss | mepiform-monitor-dashboard.js:71-74 | the alert list becomes exactly its filtered self |
| MonitorDashboard.Dashboard.LoadDailyData | mepiform-monitor-dashboard.js:97-112 | a missing or unreadable file changes nothing; a stored one replaces the order log and the product counters, missing fields reading as 0 or empty, and the statistics follow |
| HerokuServer.ChristmasEveMorning | mepiform-heroku-server.js:62 | at 09:00 on Christmas Eve 2024 the plain work-hours test passes while `isWithinWorkHours`, which also checks holidays, fails (also lines 192-198 of the same file) |
| HerokuServer.FirstAt | mepiform-heroku-server.js:121-122 | the search returns the least matching position, or none exactly when no position matches |
| HerokuServer.FirstAtFindsLeast | mepiform-heroku-server.js:121-122 | a position that matches with no earlier match is the one the search returns |
| HerokuServer.UnitsDigits | mepiform-heroku-server.js:121 | the capture of `(\d+) units` is a non-empty run of digits |
| HerokuServer.ReferenceText | mepiform-heroku-server.js:122 | the capture of `Reference: ([A-Z0-9-]+)` is a non-empty run of capital letters, digits and dashes |
| HerokuServer.UnitsQuantity | mepiform-heroku-server.js:121 | the quantity is the value of the digits at the first `<digits> units` match, or 0 when nothing matches |
| HerokuServer.OrderReference | mepiform-heroku-server.js:122 | the reference is the capture at the first `Reference: ` match, or "Unknown" when nothing matches |
| HerokuServer.ParseOrderEvent | mepiform-heroku-server.js:116-124 | an output chunk gives an order exactly when it contains "Order successful"; the product is the 10X18CM size exactly when the chunk names it, and the quantity and reference are the first matches |
| HerokuServer.Server.constructor | mepiform-heroku-server.js:8-15 | the server starts with no process and the automation not running |
| HerokuServer.Server.StartAutomation | mepiform-heroku-server.js:93-144 | while running nothing changes; otherwise a process is spawned, the automation is marked running and the board is set to "active" |
| HerokuServer.Server.OnOutput | mepiform-heroku-server.js:112-125 | a chunk that reports an order adds exactly that order to the board, one "success" alert for it, one more order and its units to the statistics, keeping the success rate; any other chunk changes neither orders, alerts nor statistics |
| HerokuServer.Server.OnExit | mepiform-heroku-server.js:131-140 | an exit always clears the running flag, and a restart is due exactly when the exit code is not 0 and it is work time on a non-holiday |
| HerokuServer.Server.StopAutomation | mepiform-heroku-server.js:146-165 | with nothing running nothing changes; otherwise the automation is marked stopped and the board is set to "idle" |
| HerokuServer.Server.StartEndpoint | mepiform-heroku-server.js:30-42 | the answer is "already_running" when the automation was running and "started" otherwise, and it runs afterwards |
| HerokuServer.Server.StopEndpoint | mepiform-heroku-server.js:44-56 | the answer is "not_running" when it was not running and "stopped" otherwise, and it is stopped afterwards |
| HerokuServer.Server.StatusEndpoint | mepiform-heroku-server.js:58-70 | the status reports the running flag and the plain work-hours test, and as next work start the first 07:00 after now on a weekday that is not a holiday: it lies at 07:00 of its day and no working day starts between now and it (also lines 211-227 of the same file) |
| HerokuServer.Server.StartUpCheck | mepiform-heroku-server.js:77-87 | the automation is started at start-up exactly in plain work hours, holidays included |
| HerokuServer.Server.MorningJob | mepiform-heroku-server.js:171-178 | after the 07:00 job the automation runs exactly when it already ran or today is not a holiday |
| HerokuServer.Server.StopThenKilledExit | mepiform-heroku-server.js:131-165 | a stop of a running automation ends with it stopped and the board "idle", but the killed process's exit schedules a restart exactly when it is still work time on a non-holiday |
| Holidays.ListedDay | mepiform-heroku-server.js:201-205 | each listed day number falls on the listed civil date, and that date is written as the listed text |
| Holidays.ListedDayHasListedDate | mepiform-heroku-server.js:200-209 | every listed day number passes the ISO-text holiday test |
| Holidays.ListedDateIsListedDay | mepiform-heroku-server.js:200-209 | every day that passes the ISO-text holiday test is one of the twelve listed day numbers |
| Holidays.IsHolidayIffListed | mepiform-heroku-server.js:200-209 | the ISO-text test of the scripts and the day-number test agree on every day (also `mepiform-scheduler.js:63-81`) |
| Holidays.StartOf | mepiform-heroku-server.js:215 | 07:00 of a day lies on that day, at hour 7, on a whole hour |
| Holidays.SkipShortensSearch | mepiform-heroku-server.js:222-224 | every skipped weekend day or holiday brings the search closer to its end, so the search always stops |
| Holidays.FirstCandidate | mepiform-heroku-server.js:215-219 | the first candidate is the earliest day whose 07:00 lies after now |
| Holidays.NextWorkStart | mepiform-heroku-server.js:211-227 | the next start lies after now, at 07:00 on a weekday that is not a holiday, and no work day's 07:00 comes between (also `mepiform-scheduler.js:131-146`) |
| Scheduler.MepiformScheduler.constructor | mepiform-scheduler.js:6-11 | the scheduler starts with no process and not running |
| Scheduler.MepiformScheduler.StartAutomation | mepiform-scheduler.js:13-42 | afterwards a process exists and the automation runs, whether or not it ran before |
| Scheduler.MepiformScheduler.OnExit | mepiform-scheduler.js:28-36 | an exit clears the running flag, and a restart is due exactly when the code is not 0 and it is weekday work hours (holidays included) |
| Scheduler.MepiformScheduler.OnError | mepiform-scheduler.js:38-41 | a spawn error clears the running flag and nothing else |
| Scheduler.MepiformScheduler.StopAutomation | mepiform-scheduler.js:44-53 | a stop happens exactly when the automation runs with a process, and then clears the flag; otherwise nothing changes |
| Scheduler.MepiformScheduler.GetNextStartTime | mepiform-scheduler.js:131-146 | the next start lies after now, at 07:00 sharp on a weekday that is not a holiday, and no work day's 07:00 comes between |
| Scheduler.MepiformScheduler.ScheduleAutomation | mepiform-scheduler.js:112-119 | the automation starts at once exactly in weekday work hours on a non-holiday; otherwise nothing changes and the next start is a later work day |
| Scheduler.MepiformScheduler.StartJob | mepiform-scheduler.js:89-101 | after the 07:00 job the automation runs exactly when it already ran or today is not a holiday |
| Scheduler.MepiformScheduler.StopJob | mepiform-scheduler.js:104-110 | after the 18:00 job the automation is not running |
| Scheduler.MepiformScheduler.StopThenInterruptedExit | mepiform-scheduler.js:28-53 | a stop interrupts the script, whose interrupt handler exits with code 0, so no restart follows (also `mepiform-order-system.js:609-613`) |
| Scheduler.HolidayMorningIsWorkTime | mepiform-scheduler.js:55-113 | 09:00 on Christmas Eve 2024 counts as work hours here, so only the separate holiday test keeps the immediate start from happening |
| Logger.Latest | src/utils/logger.js:35-38 | the latest entries are at most 100, all of a list of at most 100, and otherwise exactly its last 100 in order |
| Logger.Pushed | src/utils/logger.js:35-38 | one log call ends the buffer with the new entry; below 100 entries it only appends, and from a buffer within the cap it keeps the latest 100 |
| Logger.PushedAllKeepsLatest | src/utils/logger.js:27-41 | from a buffer within the cap, any run of log calls leaves exactly the latest 100 of all the entries, in arrival order |
| Logger.PushedThenRest | src/utils/logger.js:35-38 | one call followed by the rest keeps the same latest 100 as all the entries at once |
| Logger.LatestOfLatest | src/utils/logger.js:36-38 | dropping old entries first does not change the latest 100 |
| Logger.RecentLogs.constructor | src/utils/logger.js:23-24 | the buffer starts empty |
| Logger.RecentLogs.Log | src/utils/logger.js:27-41 | the buffer stays within 100 entries and ends with the new one; below 100 it grows by that entry and at 100 it loses exactly its oldest |
| Logger.RecentLogs.GetRecentLogs | src/utils/logger.js:43 | the recent logs are the buffer's entries, oldest first, at most 100 |
| MepiformMonitor.ContainsAnyNext | mepiform-monitor.js:154-169 | scanning one more keyword finds a match exactly when an earlier keyword matched or the new one does |
| MepiformMonitor.AnalyzeStockStatus | mepiform-monitor.js:135-183 | the text is available exactly when it mentions delivery, or it has an available keyword and no unavailable one; the confidence is 95 with an unavailable keyword, else 90 with an available one, else 80 with delivery wording, else 50 |
| MepiformMonitor.DetermineOrderQuantity | mepiform-monitor.js:227-243 | 700 units exactly when the price read from the digits and dots is positive and 700 units cost no more than the maximum, and 350 in every other case |
| MepiformMonitor.CommaPriceReadsHundredfold | mepiform-monitor.js:231 | the filter drops a decimal comma, so a price written "<k>,00" reads as 100·k and 700 units are chosen only when 70000·k fits the maximum |
| MepiformMonitor.TriggersOnRisingEdge | mepiform-monitor.js:102-109 | the order step runs exactly on a change from "not available" to "available", and never on the first check |
| MepiformMonitor.Monitor.constructor | mepiform-monitor.js:7-37 | the monitor starts stopped and with no previous status |
| MepiformMonitor.Monitor.CheckMepiformStatus | mepiform-monitor.js:82-197 | a failed check changes nothing; otherwise the graded availability becomes the previous status, and an order of the chosen quantity is started exactly on a rise to "available" with auto-ordering on |
| MepiformMonitor.Monitor.StartMonitoring | mepiform-monitor.js:307-321 | a start while running is refused and changes no status; otherwise monitoring is on and the first check runs at once: a failed check records nothing, a successful one records the graded availability, and an order of `DetermineOrderQuantity` units is started exactly on a rise from a recorded "not available" with auto-ordering on |
| MepiformMonitor.Monitor.StopMonitoring | mepiform-monitor.js:338-356 | a stop happens exactly when monitoring was on, and monitoring is off afterwards |
| StartMepiformMonitoring.FirstKeyword | start-mepiform-monitoring.js:147-158 | the search returns the first keyword the text contains, having rejected every earlier one, or the list's length when none is contained |
| StartMepiformMonitoring.FirstKeywordMeansAny | start-mepiform-monitoring.js:147-151 | the search stops before the end exactly when some keyword occurs in the text |
| StartMepiformMonitoring.AnalyzeSwedishStockStatus | start-mepiform-monitoring.js:129-162 | the text reads as available exactly when it is non-empty and its lower-cased form contains an available keyword; the unavailable table never changes the answer |
| StartMepiformMonitoring.UnavailableReadsAvailable | start-mepiform-monitoring.js:135-151 | the status text "unavailable" reads as available, because it contains "available" |
| StartMepiformMonitoring.RestorderReadsAvailable | start-mepiform-monitoring.js:135-151 | the status text "restorder" (back order) reads as available, because it contains "order" |
| StartMepiformMonitoring.TemporarilyOutReadsAvailable | start-mepiform-monitoring.js:135-151 | the status text "tillfälligt slut i lager" (temporarily out of stock) reads as available, because it contains "i lager" |
| StartMepiformMonitoring.MaxAmount | start-mepiform-monitoring.js:180 | the budget is the configured amount, or 50000 when it is missing, unparsable or 0 |
| StartMepiformMonitoring.ChooseQuantity | start-mepiform-monitoring.js:176-190 | a price that is not positive orders 350; otherwise 700 exactly when 700 units fit the budget, no order (a notification) exactly when 350 units do not fit, and 350 in between |
| StartMepiformMonitoring.HandleStockAvailable | start-mepiform-monitoring.js:164-190 | without auto-ordering set to exactly "true" only a notification is sent; with it the quantity choice decides |
| StartMepiformMonitoring.NoOrderWithoutSetting | start-mepiform-monitoring.js:168-173 | no order is decided unless the auto-order setting is exactly "true" |
| StartMepiformMonitoring.MonitoringScript.constructor | start-mepiform-monitoring.js:14-17 | the script starts not monitoring and with no previous status |
| StartMepiformMonitoring.MonitoringScript.CheckMepiformStatus | start-mepiform-monitoring.js:83-127 | a failed check changes nothing; otherwise the reading becomes the previous status, and the ordering path runs exactly on a change from a seen "unavailable" to "available" |
| StartMepiformMonitoring.MonitoringScript.StartMonitoring | start-mepiform-monitoring.js:321-345 | a start while running is refused and changes no status; otherwise monitoring is on and the first check runs: a failed one keeps the status, a successful one records its reading, and the ordering decision is returned exactly on a change from a seen "unavailable" to available, as `HandleStockAvailable` gives it |
| StartMepiformMonitoring.MonitoringScript.StopMonitoring | start-mepiform-monitoring.js:347-362 | a stop happens exactly when monitoring was on, and monitoring is off afterwards |
| OrderAutomator.DailyLimit | src/orders/orderAutomator.js:55 | the daily limit is positive: the configured one when it is set and non-zero, else 10 |
| OrderAutomator.PriceLimit | src/orders/orderAutomator.js:78 | the price limit is positive: the configured maximum when set and non-zero, else 500 |
| OrderAutomator.ParsePrice | src/orders/orderAutomator.js:100-104 | no price text, or an empty one, gives NaN |
| OrderAutomator.ParsePriceOfNumeral | src/orders/orderAutomator.js:100-104 | a whole number with no digit or comma before it and no digit, comma or point after it reads as that number |
| OrderAutomator.ParsePriceDropsEveryComma | src/orders/orderAutomator.js:100-104 | every comma of a thousands-separated numeral is dropped, so "1,234,567" reads as 1234567 |
| OrderAutomator.ContentRefusal | src/orders/orderAutomator.js:77-95 | the product passes exactly when its price is not over the limit, it matches a keyword (when keywords are set) and its stock count is not under a set minimum; a price over the limit is refused with the price message |
| OrderAutomator.Automator.constructor | src/orders/orderAutomator.js:5-12 | the automator starts with no orders today, no last order and an empty rate limiter |
| OrderAutomator.Automator.CheckDailyLimits | src/orders/orderAutomator.js:47-57 | a count from another day (or with no last order) is zeroed, and the answer is whether the count is under the daily limit |
| OrderAutomator.Automator.ShouldPlaceOrder | src/orders/orderAutomator.js:59-98 | an order is allowed exactly when every check passes; the first three checks give their fixed reasons in order, and the stale count is reset only once those three pass |
| OrderAutomator.Automator.RecordSuccessfulOrder | src/orders/orderAutomator.js:241-247 | one more order is counted, stamped now, and the product's url is stamped now in the rate limiter |
| OrderAutomator.Automator.PlaceOrder | src/orders/orderAutomator.js:106-239 | a refusal happens exactly when a check fails; an order is placed, counted and rate limited exactly when the cart step succeeds with auto checkout on, no checkout error and no confirmation required; the cart alone counts with auto checkout off; nothing else is recorded |
| OrderAutomator.Automator.GetStats | src/orders/orderAutomator.js:258-264 | the statistics report the live count and last order time, and the number of product urls ever recorded |
| OrderAutomator.RecordedUrlIsRateLimited | src/orders/orderAutomator.js:36-45 | a product ordered at a non-zero time stays rate limited for exactly thirty minutes afterwards |
| OrderAutomator.RecordGrowsLimiterByOne | src/orders/orderAutomator.js:244 | recording an order adds at most one rate-limited product, and one only for a url not recorded before |
| ProductScraper.InStockIffNoPhrase | src/scrapers/productScraper.js:96-98 | a stock text is in stock exactly when its lower-cased form contains none of "out of stock", "unavailable" and "sold out" |
| ProductScraper.InStockExamples | src/scrapers/productScraper.js:96-98 | an empty stock text and the Swedish "Slut" count as in stock, while "SOLD OUT" does not |
| ProductScraper.ShapeResult | src/scrapers/productScraper.js:83-135 | the result carries the url and check time; a thrown load gives the fixed error record, a missing stock element "Stock info not found", and the result is in stock exactly when a stock element was found whose text passes the test |
| ProductScraper.CheckOutcome | src/scrapers/productScraper.js:75-81 | a check throws exactly when it is not logged in and no login can succeed (no page, or the indicator is missing); otherwise it returns the shaped page result |
| ProductScraper.ErrorEntry | src/scrapers/productScraper.js:149-157 | the entry of a thrown check names the product's url, is not in stock and carries the error message |
| ProductScraper.Entries | src/scrapers/productScraper.js:141-158 | each product adds one or two entries, the first for its url; two exactly when its check returned and the pause after it threw |
| ProductScraper.OneEntryPerProduct | src/scrapers/productScraper.js:138-162 | when no pause throws, the results hold one entry per product, in input order, each with its product's url |
| ProductScraper.EntriesCarryProductUrls | src/scrapers/productScraper.js:138-162 | every product gets at least one and at most two entries, and every entry carries the url of one of the products |
| ProductScraper.Scraper.constructor | src/scrapers/productScraper.js:5-10 | the scraper starts with no page and not logged in |
| ProductScraper.Scraper.Initialize | src/scrapers/productScraper.js:12-37 | the answer is whether the browser launched, and a launch gives the scraper its page |
| ProductScraper.Scraper.Login | src/scrapers/productScraper.js:39-73 | without a page the login throws and changes nothing; otherwise the answer is whether the success indicator appeared, which logs the scraper in |
| ProductScraper.Scraper.CheckProductAvailability | src/scrapers/productScraper.js:75-136 | the answer is the check's outcome, and the scraper is logged in afterwards exactly when it was before or a login with a page succeeded |
| ProductScraper.Scraper.CheckOne | src/scrapers/productScraper.js:142-158 | one loop step adds exactly the product's entries and updates the login state as the check does |
| ProductScraper.Scraper.CheckMultipleProducts | src/scrapers/productScraper.js:138-162 | the results are the entries of every product checked in order, and the final login state is the one the checks in sequence produce |
| ProductScraper.Scraper.Close | src/scrapers/productScraper.js:164-172 | afterwards there is no page and the scraper is logged out, and the scraper keeps its invariant that a logged-in scraper has a page |
| NotificationService.ReplaceNothing | src/notifications/notificationService.js:250-263 | a global replacement whose pattern matches nowhere in the rest of the text leaves that rest unchanged |
| NotificationService.LastNewline | src/notifications/notificationService.js:263 | the search returns the end of the last line feed in the range, or the range's start when it holds none |
| NotificationService.HtmlToText | src/notifications/notificationService.js:248-265 | the SMS text neither starts nor ends with white space |
| NotificationService.TagFreeTextUntouched | src/notifications/notificationService.js:251-258 | a text without `<` passes all eight tag rewrites unchanged |
| NotificationService.LineFreeTextUntouched | src/notifications/notificationService.js:263 | a text without a line feed has no blank run to collapse |
| NotificationService.OccursAtHead | src/notifications/notificationService.js:259-262 | an entity that occurs at a position starts with its first character there |
| NotificationService.OccursAtSecond | src/notifications/notificationService.js:259-262 | an entity that occurs at a position has its second character just after it |
| NotificationService.EntityFreeTextUntouched | src/notifications/notificationService.js:259-262 | a text without `&` passes the four entity rewrites unchanged |
| NotificationService.PlainTextOnlyTrimmed | src/notifications/notificationService.js:248-265 | a text with no `<`, `&` or line feed reaches the SMS only trimmed |
| NotificationService.DoubleEscapeDecoded | src/notifications/notificationService.js:259-262 | `&amp;` is decoded before `&lt;`, so the double-escaped `&amp;lt;` decodes all the way to `<` |
| NotificationService.EscapedTagLt | src/notifications/notificationService.js:261 | the `&lt;` rewrite turns `&lt;b&gt;` into `<b&gt;` |
| NotificationService.EscapedTagGt | src/notifications/notificationService.js:262 | the `&gt;` rewrite turns `<b&gt;` into `<b>` |
| NotificationService.EscapedTagDecoded | src/notifications/notificationService.js:259-262 | the entity rewrites turn the escaped tag `&lt;b&gt;` into `<b>` |
| NotificationService.DoubleEscapeDecodesTwice | src/notifications/notificationService.js:248-265 | the whole SMS rewrite turns `&amp;lt;` into `<` |
| NotificationService.EscapedTagSurvives | src/notifications/notificationService.js:248-265 | entities are decoded after the tags are stripped, so the escaped tag `&lt;b&gt;` reaches the SMS as the literal tag `<b>` |
| NotificationService.Truncated | src/notifications/notificationService.js:236-237 | the SMS body is at most 1600 characters: unchanged when it fits, otherwise its first 1597 characters and "..." |
| NotificationService.Notifier.constructor | src/notifications/notificationService.js:15-52 | email is on exactly when it is configured and the transport verifies; SMS is on exactly when it is configured and no email verification failed first |
| NotificationService.Notifier.SendNotification | src/notifications/notificationService.js:177-246 | there is an email entry first exactly when email is on and an SMS entry last exactly when SMS is on and the type is a stock alert or an order confirmation; each entry's success is the absence of its send error; the SMS is the truncated subject, blank line and converted text; no entry is made when notifications are off |
| MonitorProducts.ShouldTriggerOrder | monitor-products.js:102-128 | no alert when auto-ordering is off or no keyword is configured; an alert never has a price above the maximum; when auto-ordering is on and the price is not above the maximum (an unreadable price included) the alert fires exactly when the stock text carries a keyword |
| MonitorProducts.StockAlerts | monitor-products.js:75-86 | the alerts of a round are at most one per result, each in stock and accepted by the order rule |
| MonitorProducts.StockAlertMembers | monitor-products.js:75-86 | a result raises an alert exactly when it is in stock and the order rule accepts it |
| MonitorProducts.StockAlertsConcat | monitor-products.js:75-86 | the results are handled one by one in order: the alerts of two rounds in a row are the alerts of each, joined |
| MonitoringService.MatchedPrice | src/services/monitoringService.js:184-186 | a price is read exactly when the text holds a digit or a comma |
| MonitoringService.MatchedPriceOfNumeral | src/services/monitoringService.js:184-186 | a whole number with no digit or comma before it and no digit, comma or point after it reads as that number |
| MonitoringService.MatchedPriceStopsAtSecondComma | src/services/monitoringService.js:184-186 | only the first comma of a thousands-separated numeral is removed and the number stops at the second, so "1,234,567" reads as 1234 |
| MonitoringService.Enabled | src/services/monitoringService.js:95 | the products checked are at most all of them, each one enabled |
| MonitoringService.EnabledMembers | src/services/monitoringService.js:95 | exactly the enabled products are checked |
| MonitoringService.Service.constructor | src/services/monitoringService.js:7-12 | the service starts with no orders counted and no order day |
| MonitoringService.Service.ShouldOrder | src/services/monitoringService.js:150-209 | an order is allowed exactly when every check passes with the count as it stands after the day reset; the reset zeroes a count from another day and happens only once auto-ordering (global and per product) and the stock check pass; an allowed order is under the daily limit |
| MonitoringService.Service.ProcessOrder | src/services/monitoringService.js:211-239 | the order record names the product, its url and the price text, with the configured quantity or 1 and the number "ORD-<now>", and exactly one more order is counted |
| MonitoringService.Service.ResetDailyCount | src/services/monitoringService.js:79-82 | the midnight job zeroes the count and stamps the new day |
| MonitoringService.Service.CheckProducts | src/services/monitoringService.js:91-148 | every enabled product is checked in order with one entry each, an error entry exactly where its check threw; the orders, the final count and the order day are those of `Round`, the product-by-product sequence of `ShouldOrder` and `ProcessOrder` steps; at most one order per product; a count within the daily limit stays within it |
| MonitoringService.RoundCountsOrders | src/services/monitoringService.js:91-148 | over a round the orders only grow, by at most one per product, and keep those made before; the order day stays or becomes today; the count grows by the new orders when the day was already today, equals them after a day change, and nothing changes when the day stays another one |
| MonitoringService.OrderRecord | src/services/monitoringService.js:217-225 | the record carries the product's id, name and url, the price text, the configured quantity or 1, and "ORD-<now>" |
| Text.ContainsMeansOccurrence | src/scrapers/productScraper.js:96-98 | `includes` holds exactly when the word occurs at some position of the text |
| Text.ToLowerKeepsOccurrence | monitor-products.js:117-120 | a word that occurs in a text still occurs after both are lower-cased |
| Text.Trim | src/scrapers/productScraper.js:95 | the trimmed text is the text with its leading and trailing white space removed, and it neither starts nor ends with white space (also `src/notifications/notificationService.js:264`) |
| Text.NatToStringRoundTrip | mepiform-order-system.js:521 | the decimal numeral of a number reads back as that number |
| Text.NatToStringInjective | mepiform-order-system.js:521 | distinct numbers have distinct numerals |
| Text.PadStart | mepiform-order-system.js:521 | `padStart` keeps the text as its tail and fills up to the width with the pad character, never shortening (also `complete-order-automation.js:56`) |
| Text.ZeroPadDigits | mepiform-order-system.js:521 | a number whose numeral fits the width pads to exactly that many digits, which still read as the number (also `complete-order-automation.js:56`) |
| Text.ZeroPadInjective | mepiform-order-system.js:521 | distinct numbers that fit the width have distinct padded numerals (also `complete-order-automation.js:56`) |
| Calendar.NextWeekday | mepiform-order-system.js:524-533 | the next business day is one to three days ahead, not on a weekend, with only weekend days between |
| Calendar.CivilRoundTrip | mepiform-heroku-server.js:207 | converting a day number to its calendar date and back gives the same day |
| Calendar.IsoDateReadsBack | mepiform-heroku-server.js:207 | an ISO date of ten characters reads back as the calendar date it was written from |
| Calendar.IsoDateInjective | mepiform-heroku-server.js:207 | two days with the same ten-character ISO date are the same day |
| Calendar.RemoveAll | mepiform-automation.js:250 | removing every dash leaves no dash and every other character of the text |
| Calendar.RemoveAllConcat | mepiform-automation.js:250 | removal works piece by piece, so the characters kept stay in their order and number |
| Calendar.RemoveAllAbsent | mepiform-automation.js:250 | a text without a dash is left as it is |
| Calendar.DateTextCompacts | mepiform-automation.js:250 | a `DDDD-DD-DD` text loses exactly its two dashes, keeping its eight digits in order |
| Calendar.CompactDateDigits | mepiform-automation.js:250 | the compact date of a four-digit year is the ISO date's year, month and day digits, eight in all |
| Calendar.NewYear2024 | mepiform-heroku-server.js:202 | day 19723 is the first of January 2024, a Monday |
| Prices.Keep | mepiform-monitor.js:231 | the `[^0-9.]` style filter keeps only accepted characters and never lengthens the text |
| Prices.KeepDigitsAndDotsIgnoresComma | mepiform-monitor.js:231 | the `[^0-9.]` filter drops a comma wherever it stands |
| Prices.ReplaceFirstAt | complete-order-automation.js:197 | the one-character `replace` changes exactly the first occurrence and keeps what precedes and follows it |
| Prices.RemoveFirstAt | src/services/monitoringService.js:186 | `replace(',', '')` removes exactly the first comma and keeps what precedes and follows it |
| Prices.ParseFloat | src/orders/orderAutomator.js:103 | the parse gives NaN exactly when the text starts neither with a digit nor with a point followed by a digit, so ".45" reads as 0.45; otherwise the result is the exact decimal value of the leading numeral |
| Prices.ParseFloatOfDigits | src/orders/orderAutomator.js:103 | a run of digits reads as its value, with no fractional part |
| Prices.ParseFloatOfWhole | src/orders/orderAutomator.js:103 | digits followed by a comma read as the digits alone: the number stops at the comma |
| Prices.ParseFloatOfDecimal | src/orders/orderAutomator.js:103 | "<w>.<f>" followed by anything but a digit reads as the digits of w and f with as many decimals as f has |
| Prices.ParseFloatOfFraction | src/orders/orderAutomator.js:103 | a point followed by digits reads as a fraction below one |
| Prices.DigitsConcat | src/orders/orderAutomator.js:103 | the value of digits `a` then `b` is the value of `a` shifted by the length of `b`, plus the value of `b` |
| Prices.NumberMatch | src/orders/orderAutomator.js:102 | `/[\d,]+\.?\d*/` matches exactly when the text holds a digit or comma; the match starts at the first of them, is the longest text the pattern accepts there (`FirstMatch`) and holds only digits, points and commas (also `src/services/monitoringService.js:184`) |
| Prices.FirstMatchUnique | src/orders/orderAutomator.js:102 | a text has at most one first, longest match |
| Prices.GreedyMatchIsFirst | src/orders/orderAutomator.js:102 | the greedy scan (the run of digits and commas, an optional point, the run of digits) ends exactly where the longest match at the first digit or comma ends |
| Prices.NumberMatchAt | src/orders/orderAutomator.js:102 | a run of digits and commas with no digit or comma before it and no digit, comma or point after it is the match |
| Prices.ThousandsMatch | src/orders/orderAutomator.js:102 | in "1,234,567" the whole group sequence with both commas is the match |
| Prices.CommaDecimalValue | complete-order-automation.js:197 | a price written "<kronor>,<öre>" reads as the digits of kronor and öre with as many decimals as öre has digits, so "250,50" reads as 250.50 |
| Prices.CommaBeforeDigitsReadsAsFraction | complete-order-automation.js:197 | a label comma before the price becomes the decimal point, so "Pris, exkl. moms: 45,00 kr" reads as 0.45 and the price's own comma ends the number |
| Prices.AbbreviationDotReadsAsFraction | mepiform-monitor.js:231 | a dot in the label ahead of the price survives the `[^0-9.]` filter and the comma does not, so "exkl. moms 45,00 kr" reads as 0.4500 (also `start-mepiform-monitoring.js:176`, `monitor-products.js:110`) |
| Prices.StrippedPriceDropsComma | mepiform-monitor.js:231 | a price written "<kronor>,<two digits>" loses its comma under the `[^0-9.]` filter and reads as a hundredfold numeral (also `start-mepiform-monitoring.js:176`, `monitor-products.js:110`) |
| Prices.TruthyMeansPositive | complete-order-automation.js:200 | a parsed number is truthy exactly when its value is above zero |
| Prices.GreaterThanMeansValue | src/orders/orderAutomator.js:78 | `GreaterThan(p, b)` holds exactly when the value of p is above b |
| Prices.NumberTextReadsBack | src/orders/orderAutomator.js:79 | the text `${price}` writes a parsed price as reads back under `parseFloat` as the same value |
| Prices.NumberTextOfFraction | src/orders/orderAutomator.js:79 | a price without a trailing zero after the point is written as whole part, point and padded fraction, and reads back exactly |
| Prices.TimesAtMostMeansValue | complete-order-automation.js:205 | `TimesAtMost(p, k, b)` holds exactly when k times the value of p is at most b |
| Prices.FloorDivIsFloor | complete-order-automation.js:241 | `FloorDiv(b, p)` units cost at most b and one more unit costs more: it is `Math.floor(b / p)` |

## Left out

- Browser driving (navigation, selectors, typing, clicks, screenshots, login forms) is replaced by the page oracle; the clicks on backorder rows are not modelled, only which rows are deleted.
- Child processes, node-schedule and node-cron jobs, `setInterval` and `setTimeout` become method calls and returned flags. The two-second start delay, SIGTERM then SIGKILL after five seconds, and the ten-second expiry of dashboard alerts are not modelled.
- Express, WebSocket and socket.io servers and the dashboard's HTML and page script are not modelled. The endpoints are methods that return the response's fields.
- Time zones: every date, weekday and hour is computed in UTC, while the scripts mix `toISOString` (UTC) with the local `getDay` and `getHours`.
- Prices are exact decimals (`Num(digits, scale)`), and every comparison is decided on the exact value. JavaScript's binary floating point is not modelled: `parseFloat("0.1") * 700` is 70.00000000000001 there, so a product that lands exactly on a budget can compare differently. NaN is modelled explicitly.
- Prices.NumberTextReadsBack: JavaScript writes numbers below 10^-6 or from 10^21 upward in exponent notation (`1e-7`); the model always writes plain decimals, so the round trip is stated for plain decimal text only.
- NotificationService.Truncated: lengths and the 1597-character cut count Unicode scalar values (Dafny characters), while `substring` and `length` at `src/notifications/notificationService.js:236-237` count UTF-16 code units; a message with characters outside the Basic Multilingual Plane (emoji) is cut at a different place and may be split inside a surrogate pair in the source.
- MepiformMonitor.Monitor.StartMonitoring and CompleteOrder.CompleteOrderAutomation.StartMonitoring: the repeating interval timer started after the first check is not modelled; later checks are calls of the check method.
- Lower-casing covers ASCII and Latin-1 letters only, and the `/i` flag in `htmlToText` folds ASCII only. Full Unicode case mapping is not modelled. Trimming uses the full JavaScript white-space set.
- Randomness (`getRandomInterval`) is not modelled; its delay only spaces checks.
- `Promise.all` over two products sharing one page (`mepiform-automation.js:396`) is modelled as product 1, then product 2.
- nodemailer, Twilio and winston transports are not modelled. A transporter or client that throws during set-up is a parameter that disables its channel.
- File I/O: the daily state and reset files are values (`StoredFile`, `Option`); JSON encoding is not modelled.
- Environment variables: `parseInt` and `parseFloat` of their text is not modelled; they arrive parsed.
- The readline password prompts and the setup, test and diagnostic scripts are not modelled.
- Asynchronous set-up: a notification request made before `initialize` finished is not modelled; the model starts with set-up done.
- Exceptions thrown by the page inside the reduction ladder's own quantity-update steps are not modelled; each rung is one answer of the oracle.
- CompleteOrder.DeliveryDay: the delivery date is derived from the order's day. The date text typed into the form is not modelled.
- Logger.RecentLogs.GetRecentLogs: returns the entries by value, so the aliasing of the live array is not captured. The timestamp is kept as epoch milliseconds, not as ISO text. Only calls through the wrapped `log` are buffered; the winston level methods are not modelled.
- OrderAutomator.Automator.ShouldPlaceOrder: the keyword and minimum-stock settings are fields of the configuration value it is given. The code reads `config.orderConditions`, which the configuration's `getOrderConfig` does not return (it returns `conditions`), so with the shipped configuration both checks are skipped.
- MonitorProducts.ShouldTriggerOrder: with the shipped configuration the keyword list is empty, so no alert ever fires; the model states this rather than assuming a list.
- ProductScraper.Scraper.Initialize: a browser that launched while `newPage` failed is read as a failed initialisation.
- Scheduler.MepiformScheduler.StopThenInterruptedExit: the child's SIGINT handler is taken to finish its clean-up and exit with code 0; a clean-up that rejects is not modelled.
- MepiformOrderSystem: the test at `test-mepiform-system.js:95-97` expects two calls to give different references, but the code gives the same one; the model follows the code.
- CompleteOrder.StrategyIsAlwaysSingle: the split branch can never run, since every listed split costs as much as 700 units at once. The split loop is modelled anyway (`PlaceSplitOrders`).
- MonitorDashboard: alert ids come from the clock and may collide; the model takes them as given.
