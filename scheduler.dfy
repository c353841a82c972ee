/**
 * The local scheduler of mepiform-scheduler.js: it runs the order script
 * as a child process between 07:00 and 18:00 on weekdays, skips the listed
 * holidays when starting, and restarts the script after an unexpected exit
 * within work hours.
 */
module Scheduler {
  import opened Wrappers
  import opened Calendar
  import opened Holidays

  /** The start and stop times of the work day. */
  const StartHour: nat := 7
  const EndHour: nat := 18

  /** `isWithinWorkHours`: Monday to Friday, 07:00 to 17:59, holidays included. */
  predicate IsWithinWorkHours(now: nat)
  {
    !IsWeekend(DayOf(now)) && StartHour <= HourOf(now) < EndHour
  }

  class MepiformScheduler {
    var isRunning: bool
    /** Whether a child process was ever spawned (`automationProcess` is not null). */
    var hasProcess: bool

    /** A running flag always comes with a process. */
    predicate Valid()
      reads this
    {
      isRunning ==> hasProcess
    }

    constructor ()
      ensures !isRunning && !hasProcess && Valid()
    {
      isRunning := false;
      hasProcess := false;
    }

    /** `startAutomation`: nothing while running; else the process is spawned and the flag set. */
    method StartAutomation()
      requires Valid()
      modifies this
      ensures Valid() && isRunning && hasProcess
    {
      if isRunning {
        return;
      }
      hasProcess := true;
      isRunning := true;
    }

    /** The exit handler: the flag is cleared; a restart is due iff the code is not 0 and it is work time. */
    method OnExit(code: Option<int>, now: nat) returns (restart: bool)
      modifies this
      ensures !isRunning && hasProcess == old(hasProcess) && Valid()
      ensures restart <==> code != Some(0) && IsWithinWorkHours(now)
    {
      isRunning := false;
      restart := code != Some(0) && IsWithinWorkHours(now);
    }

    /** The error handler: the spawn failed, so the flag is cleared and nothing is restarted. */
    method OnError()
      modifies this
      ensures !isRunning && hasProcess == old(hasProcess) && Valid()
    {
      isRunning := false;
    }

    /** `stopAutomation`: nothing without a running process; else the process is interrupted and the flag cleared. */
    method StopAutomation() returns (stopped: bool)
      modifies this
      ensures stopped <==> old(isRunning) && old(hasProcess)
      ensures !stopped ==> isRunning == old(isRunning)
      ensures stopped ==> !isRunning
      ensures hasProcess == old(hasProcess)
    {
      if !isRunning || !hasProcess {
        return false;
      }
      isRunning := false;
      stopped := true;
    }

    /** `getNextStartTime`: the earliest 07:00 after `now` on a weekday that is not a holiday. */
    method GetNextStartTime(now: nat) returns (next: nat)
      ensures now < next && HourOf(next) == StartHour && next % MsPerHour == 0 && IsWorkDay(DayOf(next))
      ensures forall day :: now < StartOf(day) < next ==> !IsWorkDay(day)
    {
      next := NextWorkStart(now);
    }

    /**
     * `scheduleAutomation`'s immediate check: within work hours on a day
     * that is not a holiday the automation starts now; otherwise the next
     * start time is computed for the log.
     */
    method ScheduleAutomation(now: nat) returns (startedNow: bool, nextStart: Option<nat>)
      requires Valid()
      modifies this
      ensures Valid()
      ensures startedNow <==> IsWithinWorkHours(now) && !IsHoliday(DayOf(now))
      ensures startedNow ==> isRunning && nextStart == None
      ensures !startedNow ==> isRunning == old(isRunning) && hasProcess == old(hasProcess)
      ensures !startedNow ==> nextStart.Some? && now < nextStart.value && IsWorkDay(DayOf(nextStart.value))
    {
      if IsWithinWorkHours(now) && !IsHoliday(DayOf(now)) {
        StartAutomation();
        return true, None;
      }
      var next := GetNextStartTime(now);
      startedNow, nextStart := false, Some(next);
    }

    /** The 07:00 weekday job: the automation starts unless today is a holiday. */
    method StartJob(now: nat)
      requires Valid()
      modifies this
      ensures Valid()
      ensures isRunning <==> old(isRunning) || !IsHoliday(DayOf(now))
    {
      if !IsHoliday(DayOf(now)) {
        StartAutomation();
      }
    }

    /** The 18:00 weekday job: the automation stops. */
    method StopJob()
      requires Valid()
      modifies this
      ensures Valid() && !isRunning
    {
      var _ := StopAutomation();
    }

    /**
     * A stop interrupts the process, whose SIGINT handler in
     * mepiform-order-system.js cleans up and exits with code 0, so the
     * exit handler schedules no restart, whatever the time.
     */
    method StopThenInterruptedExit(now: nat) returns (restart: bool)
      requires Valid() && isRunning
      modifies this
      ensures !isRunning && Valid()
      ensures !restart
    {
      var _ := StopAutomation();
      restart := OnExit(Some(0), now);
    }
  }

  /** 09:00 on a listed holiday that falls on a weekday is work time here, and the immediate start is skipped only by the separate holiday test. */
  lemma HolidayMorningIsWorkTime()
    ensures IsWithinWorkHours(StartOf(20081) + 2 * MsPerHour)
    ensures IsHoliday(DayOf(StartOf(20081) + 2 * MsPerHour))
  {
    var t := StartOf(20081) + 2 * MsPerHour;
    assert DayOf(t) == 20081 && HourOf(t) == 9;
    assert HolidayDays[8] == 20081;
  }
}
