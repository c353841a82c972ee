/**
 * The recent-log buffer of src/utils/logger.js: every `log` call appends its
 * entry, and once the buffer holds more than 100 entries the oldest one is
 * dropped, so the buffer is always the latest 100 entries in arrival order.
 */
module Logger {
  const MaxRecentLogs: nat := 100

  /** One entry: the time of the call (epoch milliseconds), level, message and metadata. */
  datatype LogEntry = LogEntry(timestamp: nat, level: string, message: string, meta: string)

  /** The last `MaxRecentLogs` elements of `s`, in order. */
  function Latest<T>(s: seq<T>): (r: seq<T>)
    ensures |r| <= MaxRecentLogs
    ensures |s| <= MaxRecentLogs ==> r == s
    ensures |s| > MaxRecentLogs ==> |r| == MaxRecentLogs
    ensures r == s[|s| - |r|..]
  {
    if |s| > MaxRecentLogs then s[|s| - MaxRecentLogs..] else s
  }

  /** The buffer after one `push` and, on overflow, one `shift`. */
  function Pushed(buffer: seq<LogEntry>, e: LogEntry): (r: seq<LogEntry>)
    ensures 0 < |r| <= |buffer| + 1 && r[|r| - 1] == e
    ensures r == (buffer + [e])[|buffer| + 1 - |r|..]
    ensures |buffer| < MaxRecentLogs ==> r == buffer + [e]
    ensures |buffer| <= MaxRecentLogs ==> r == Latest(buffer + [e])
  {
    var b := buffer + [e];
    if |b| > MaxRecentLogs then b[1..] else b
  }

  /** The buffer after a run of `log` calls. */
  function PushedAll(buffer: seq<LogEntry>, es: seq<LogEntry>): seq<LogEntry>
    decreases |es|
  {
    if |es| == 0 then buffer else PushedAll(Pushed(buffer, es[0]), es[1..])
  }

  /**
   * From a buffer within the cap, any run of calls leaves exactly the latest
   * 100 of all entries, in arrival order: nothing is lost below the cap, and
   * on overflow only the oldest go.
   */
  lemma {:induction false} PushedAllKeepsLatest(buffer: seq<LogEntry>, es: seq<LogEntry>)
    requires |buffer| <= MaxRecentLogs
    ensures PushedAll(buffer, es) == Latest(buffer + es)
    decreases |es|
  {
    if |es| == 0 {
      assert buffer + es == buffer;
    } else {
      PushedAllKeepsLatest(Pushed(buffer, es[0]), es[1..]);
      PushedThenRest(buffer, es);
    }
  }

  /** One call and then the rest keep the same latest 100 as all of them at once. */
  lemma PushedThenRest(buffer: seq<LogEntry>, es: seq<LogEntry>)
    requires |buffer| <= MaxRecentLogs && |es| > 0
    ensures Latest(Pushed(buffer, es[0]) + es[1..]) == Latest(buffer + es)
  {
    var first := buffer + [es[0]];
    var rest := es[1..];
    assert Pushed(buffer, es[0]) == Latest(first);
    LatestOfLatest(first, rest);
    assert es == [es[0]] + rest;
    assert buffer + es == first + rest;
  }

  /** Dropping old entries first does not change the latest 100. */
  lemma LatestOfLatest<T>(a: seq<T>, b: seq<T>)
    ensures Latest(Latest(a) + b) == Latest(a + b)
  {
    var la := Latest(a);
    assert a == a[..|a| - |la|] + la;
    assert a + b == a[..|a| - |la|] + (la + b);
  }

  class RecentLogs {
    var entries: seq<LogEntry>

    predicate Valid()
      reads this
    {
      |entries| <= MaxRecentLogs
    }

    constructor ()
      ensures entries == [] && Valid()
    {
      entries := [];
    }

    /** The wrapped `log`: one entry appended, the front dropped past 100. */
    method Log(level: string, message: string, meta: string, now: nat)
      requires Valid()
      modifies this
      ensures Valid()
      ensures entries == Pushed(old(entries), LogEntry(now, level, message, meta))
      ensures entries[|entries| - 1] == LogEntry(now, level, message, meta)
      ensures |old(entries)| < MaxRecentLogs ==> entries == old(entries) + [LogEntry(now, level, message, meta)]
      ensures |old(entries)| == MaxRecentLogs ==> entries == old(entries)[1..] + [LogEntry(now, level, message, meta)]
    {
      var e := LogEntry(now, level, message, meta);
      entries := entries + [e];
      if |entries| > MaxRecentLogs {
        entries := entries[1..];
      }
    }

    /** `getRecentLogs`: the buffer's entries, oldest first. */
    method GetRecentLogs() returns (logs: seq<LogEntry>)
      requires Valid()
      ensures logs == entries && |logs| <= MaxRecentLogs
    {
      logs := entries;
    }
  }
}
