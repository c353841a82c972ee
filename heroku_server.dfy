/**
 * The web process of mepiform-heroku-server.js: it starts and stops the
 * order script as a child process, restarts it after an unexpected exit
 * within work hours, feeds order lines from its output to the dashboard,
 * and starts it on weekday mornings unless the day is a holiday.
 */
module HerokuServer {
  import opened Text
  import opened Wrappers
  import opened Calendar
  import opened Holidays
  import opened Prices
  import opened MonitorDashboard

  /** Monday to Friday, 07:00 to 17:59: the test of the status endpoint and of the start-up check. */
  predicate InWorkHours(now: nat)
  {
    !IsWeekend(DayOf(now)) && 7 <= HourOf(now) < 18
  }

  /** `isWithinWorkHours`: work hours on a day that is not a holiday. */
  predicate IsWithinWorkHours(now: nat)
  {
    InWorkHours(now) && !IsHoliday(DayOf(now))
  }

  /** 09:00 on Christmas Eve 2024, a Tuesday: the start-up test passes though `isWithinWorkHours` does not. */
  lemma ChristmasEveMorning()
    ensures InWorkHours(StartOf(20081) + 2 * MsPerHour)
    ensures !IsWithinWorkHours(StartOf(20081) + 2 * MsPerHour)
  {
    var t := StartOf(20081) + 2 * MsPerHour;
    assert DayOf(t) == 20081 && HourOf(t) == 9;
    assert HolidayDays[8] == 20081;
  }

  // ---------------------------------------------------------------------
  // Order lines in the script's output
  // ---------------------------------------------------------------------

  /** The least position from `k` below `n` that satisfies `p`, if any. */
  function FirstAt(n: nat, k: nat, p: nat -> bool): (j: Option<nat>)
    requires k <= n
    ensures j.Some? ==> k <= j.value < n && p(j.value) && forall i :: k <= i < j.value ==> !p(i)
    ensures j.None? ==> forall i :: k <= i < n ==> !p(i)
    decreases n - k
  {
    if k == n then None
    else if p(k) then Some(k)
    else FirstAt(n, k + 1, p)
  }

  /** The search finds the least position that satisfies `p`. */
  lemma FirstAtFindsLeast(n: nat, p: nat -> bool, i: nat)
    requires i < n && p(i) && forall k: nat :: k < i ==> !p(k)
    ensures FirstAt(n, 0, p) == Some(i)
  {
    var j := FirstAt(n, 0, p);
    if j.Some? {
      assert !(j.value < i) && !(i < j.value);
    }
  }

  /** `/(\d+) units/` matches at `i`: a run of digits from `i` followed by " units". */
  predicate UnitsMatchAt(s: string, i: nat)
  {
    i < |s| && IsDigit(s[i]) && OccursAt(s, " units", RunEnd(s, i, IsDigit))
  }

  /** The characters of `[A-Z0-9-]`. */
  predicate IsReferenceChar(c: char)
  {
    'A' <= c <= 'Z' || IsDigit(c) || c == '-'
  }

  /** `/Reference: ([A-Z0-9-]+)/` matches at `i`: the label, then at least one reference character. */
  predicate ReferenceMatchAt(s: string, i: nat)
  {
    OccursAt(s, "Reference: ", i) && i + 11 < |s| && IsReferenceChar(s[i + 11])
  }

  /** The digits of a units match. */
  function UnitsDigits(s: string, i: nat): (d: string)
    requires UnitsMatchAt(s, i)
    ensures |d| > 0 && forall k :: 0 <= k < |d| ==> IsDigit(d[k])
  {
    s[i..RunEnd(s, i, IsDigit)]
  }

  /** The reference of a reference match. */
  function ReferenceText(s: string, i: nat): (r: string)
    requires ReferenceMatchAt(s, i)
    ensures |r| > 0 && forall k :: 0 <= k < |r| ==> IsReferenceChar(r[k])
  {
    s[i + 11..RunEnd(s, i + 11, IsReferenceChar)]
  }

  /** `i` is where the regular expression `/(\d+) units/` first matches. */
  predicate FirstUnitsMatch(s: string, i: nat)
  {
    UnitsMatchAt(s, i) && forall k: nat :: k < i ==> !UnitsMatchAt(s, k)
  }

  /** `i` is where `/Reference: ([A-Z0-9-]+)/` first matches. */
  predicate FirstReferenceMatch(s: string, i: nat)
  {
    ReferenceMatchAt(s, i) && forall k: nat :: k < i ==> !ReferenceMatchAt(s, k)
  }

  /** `parseInt` of the first `/(\d+) units/` capture, or 0 without a match. */
  function UnitsQuantity(output: string): (q: nat)
    ensures (forall i: nat :: !UnitsMatchAt(output, i)) ==> q == 0
    ensures forall i: nat :: FirstUnitsMatch(output, i) ==> q == DigitsValue(UnitsDigits(output, i))
  {
    var p := (i: nat) => UnitsMatchAt(output, i);
    var first := FirstAt(|output|, 0, p);
    assert forall i: nat :: FirstUnitsMatch(output, i) ==> first == Some(i) by {
      forall i: nat | FirstUnitsMatch(output, i) {
        FirstAtFindsLeast(|output|, p, i);
      }
    }
    if first.Some? then DigitsValue(UnitsDigits(output, first.value)) else 0
  }

  /** The first `/Reference: ([A-Z0-9-]+)/` capture, or "Unknown" without a match. */
  function OrderReference(output: string): (ref: string)
    ensures (forall i: nat :: !ReferenceMatchAt(output, i)) ==> ref == "Unknown"
    ensures forall i: nat :: FirstReferenceMatch(output, i) ==> ref == ReferenceText(output, i)
  {
    var p := (i: nat) => ReferenceMatchAt(output, i);
    var first := FirstAt(|output|, 0, p);
    assert forall i: nat :: FirstReferenceMatch(output, i) ==> first == Some(i) by {
      forall i: nat | FirstReferenceMatch(output, i) {
        FirstAtFindsLeast(|output|, p, i);
      }
    }
    if first.Some? then ReferenceText(output, first.value) else "Unknown"
  }

  /**
   * The order event read from a chunk of the script's output: only a chunk
   * that mentions "Order successful" gives one; the product is the large
   * size when "10X18CM" appears, the quantity is the first "<digits> units"
   * (0 without one), the reference follows the first "Reference: " (or is
   * "Unknown").
   */
  function ParseOrderEvent(output: string): (r: Option<NewOrder>)
    ensures r.Some? <==> Contains(output, "Order successful")
    ensures r.Some? ==> r.value.product == if Contains(output, "10X18CM") then "MEPIFORM 10X18CM" else "MEPIFORM 5X7.5CM"
    ensures r.Some? ==> r.value.quantity == UnitsQuantity(output) && r.value.reference == OrderReference(output)
  {
    if !Contains(output, "Order successful") then None
    else
      var product := if Contains(output, "10X18CM") then "MEPIFORM 10X18CM" else "MEPIFORM 5X7.5CM";
      Some(NewOrder(product, UnitsQuantity(output), OrderReference(output)))
  }

  /** What the status endpoint reports. */
  datatype AutomationStatus = AutomationStatus(isRunning: bool, isWorkHours: bool, currentTime: nat, nextWorkStart: nat)

  class Server {
    var isAutomationRunning: bool
    /** Whether a child process was ever spawned (`automationProcess` is not null). */
    var hasProcess: bool
    var dashboard: Dashboard

    /** A running flag always comes with a process. */
    predicate Valid()
      reads this
    {
      isAutomationRunning ==> hasProcess
    }

    constructor (board: Dashboard)
      ensures !isAutomationRunning && !hasProcess && dashboard == board && Valid()
    {
      isAutomationRunning := false;
      hasProcess := false;
      dashboard := board;
    }

    /** `startAutomation`: nothing while running; else a process is spawned, the flag set and the board set to "active". */
    method StartAutomation(now: nat)
      requires Valid()
      modifies this`isAutomationRunning, this`hasProcess, dashboard`systemStatus, dashboard`lastUpdate
      ensures Valid() && isAutomationRunning
      ensures old(isAutomationRunning) ==>
                hasProcess == old(hasProcess) && dashboard.systemStatus == old(dashboard.systemStatus)
                && dashboard.lastUpdate == old(dashboard.lastUpdate)
      ensures !old(isAutomationRunning) ==> hasProcess && dashboard.systemStatus == "active" && dashboard.lastUpdate == now
    {
      if isAutomationRunning {
        return;
      }
      hasProcess := true;
      isAutomationRunning := true;
      dashboard.UpdateSystemStatus("active", now);
    }

    /** The output handler: a chunk that reports an order adds it to the board. */
    method OnOutput(output: string, now: nat)
      requires dashboard.StatsCurrent()
      modifies dashboard`todaysOrders, dashboard`stats, dashboard`alerts
      ensures dashboard.StatsCurrent()
      ensures ParseOrderEvent(output).None? ==>
                dashboard.todaysOrders == old(dashboard.todaysOrders) && dashboard.alerts == old(dashboard.alerts)
                && dashboard.stats == old(dashboard.stats)
      ensures ParseOrderEvent(output).Some? ==>
                var o := ParseOrderEvent(output).value;
                dashboard.todaysOrders == old(dashboard.todaysOrders) + [DashOrder(o.product, o.quantity, o.reference, Some(now), now)]
                && dashboard.alerts == old(dashboard.alerts) + [Alert(now, "success", OrderMessage(o), now, false)]
                && dashboard.stats.successRate == old(dashboard.stats.successRate)
                && dashboard.stats.totalOrdersToday == old(dashboard.stats.totalOrdersToday) + 1
                && dashboard.stats.totalUnitsToday == old(dashboard.stats.totalUnitsToday) + o.quantity
    {
      var event := ParseOrderEvent(output);
      if event.Some? {
        dashboard.AddOrder(event.value, now);
      }
    }

    /** The exit handler: the flag is cleared; a restart is due iff the code is not 0 and it is work time. */
    method OnExit(code: Option<int>, now: nat) returns (restart: bool)
      modifies this`isAutomationRunning
      ensures !isAutomationRunning
      ensures restart <==> code != Some(0) && IsWithinWorkHours(now)
    {
      isAutomationRunning := false;
      restart := code != Some(0) && IsWithinWorkHours(now);
    }

    /** `stopAutomation`: nothing without a running process; else the flag is cleared and the board set to "idle". */
    method StopAutomation(now: nat)
      requires Valid()
      modifies this`isAutomationRunning, dashboard`systemStatus, dashboard`lastUpdate
      ensures Valid() && !isAutomationRunning
      ensures !old(isAutomationRunning) ==>
                dashboard.systemStatus == old(dashboard.systemStatus) && dashboard.lastUpdate == old(dashboard.lastUpdate)
      ensures old(isAutomationRunning) ==> dashboard.systemStatus == "idle" && dashboard.lastUpdate == now
    {
      if !isAutomationRunning || !hasProcess {
        return;
      }
      isAutomationRunning := false;
      dashboard.UpdateSystemStatus("idle", now);
    }

    /** `/start-automation`: "already_running" while running, else "started". */
    method StartEndpoint(now: nat) returns (status: string)
      requires Valid()
      modifies this`isAutomationRunning, this`hasProcess, dashboard`systemStatus, dashboard`lastUpdate
      ensures Valid() && isAutomationRunning
      ensures status == if old(isAutomationRunning) then "already_running" else "started"
    {
      if isAutomationRunning {
        return "already_running";
      }
      StartAutomation(now);
      status := "started";
    }

    /** `/stop-automation`: "not_running" when not running, else "stopped". */
    method StopEndpoint(now: nat) returns (status: string)
      requires Valid()
      modifies this`isAutomationRunning, dashboard`systemStatus, dashboard`lastUpdate
      ensures Valid() && !isAutomationRunning
      ensures status == if old(isAutomationRunning) then "stopped" else "not_running"
    {
      if !isAutomationRunning {
        return "not_running";
      }
      StopAutomation(now);
      status := "stopped";
    }

    /** `/automation-status`: the work-hours field leaves holidays out; the next start is the earliest work-day 07:00 after now. */
    method StatusEndpoint(now: nat) returns (s: AutomationStatus)
      ensures s.isRunning == isAutomationRunning && s.isWorkHours == InWorkHours(now) && s.currentTime == now
      ensures now < s.nextWorkStart && IsWorkDay(DayOf(s.nextWorkStart)) && HourOf(s.nextWorkStart) == 7
      ensures s.nextWorkStart == StartOf(DayOf(s.nextWorkStart))
      ensures forall day :: now < StartOf(day) < s.nextWorkStart ==> !IsWorkDay(day)
    {
      var next := NextWorkStart(now);
      s := AutomationStatus(isAutomationRunning, InWorkHours(now), now, next);
    }

    /** The start-up check: the automation is started (after a short delay) iff it is work hours, holidays included. */
    method StartUpCheck(now: nat) returns (startSoon: bool)
      ensures startSoon == InWorkHours(now)
    {
      startSoon := !IsWeekend(DayOf(now)) && 7 <= HourOf(now) && HourOf(now) < 18;
    }

    /** The 07:00 weekday job: the automation starts unless today is a holiday. */
    method MorningJob(now: nat)
      requires Valid()
      modifies this`isAutomationRunning, this`hasProcess, dashboard`systemStatus, dashboard`lastUpdate
      ensures Valid()
      ensures isAutomationRunning <==> old(isAutomationRunning) || !IsHoliday(DayOf(now))
    {
      if !IsHoliday(DayOf(now)) {
        StartAutomation(now);
      }
    }

    /**
     * A stop of a running automation kills the process, whose exit then
     * has no code; the exit handler schedules a restart exactly when it is
     * still work time, so a stop through the endpoint before 18:00 on a
     * work day does not last.
     */
    method StopThenKilledExit(now: nat) returns (restart: bool)
      requires Valid() && isAutomationRunning
      modifies this`isAutomationRunning, dashboard`systemStatus, dashboard`lastUpdate
      ensures !isAutomationRunning && dashboard.systemStatus == "idle"
      ensures restart <==> IsWithinWorkHours(now)
    {
      StopAutomation(now);
      restart := OnExit(None, now);
    }
  }
}
